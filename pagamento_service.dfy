/**
 * `PagamentoService`: registering a payment against an active lease,
 * confirming it, deleting it, and listing a lease's payments.
 *
 * Every operation is `@Transactional`: when it fails, the tables are as they
 * were before the call.
 */
module PagamentoService {
  import opened Wrappers
  import opened Dates
  import opened Entities
  import opened Database
  import opened PagamentoModel

  const MSG_ALUGUEL_INATIVO := "Não é possível registrar pagamento para um aluguel que não está ativo"
  const MSG_PAGAMENTO_CONFIRMADO := "Não é possível excluir um pagamento já confirmado"

  /** The payment as `registrar` prepares it, before the save hook runs. */
  function Registrado(p: Pagamento, aluguelId: int): (q: Pagamento)
    ensures q.aluguelId == Some(aluguelId) && q.status == PENDENTE
    ensures q.(aluguelId := p.aluguelId, status := p.status) == p
  {
    p.(aluguelId := Some(aluguelId), status := PENDENTE)
  }

  /** A registered payment is stored PENDENTE, or ATRASADO when its due date has already passed. */
  lemma RegistradoStatus(p: Pagamento, aluguelId: int, hoje: LocalDate)
    ensures AposHook(Registrado(p, aluguelId), hoje).status ==
            if p.dataPagamento.Some? && Before(p.dataPagamento.value, hoje) then ATRASADO else PENDENTE
    ensures AposHook(Registrado(p, aluguelId), hoje).aluguelId == Some(aluguelId)
  {
  }

  /** The history row with one more payment at its end. */
  function Anexar(h: Historico, pagamentoId: int): (r: Historico)
    ensures r.id == h.id && r.clienteId == h.clienteId
    ensures |r.pagamentos| == |h.pagamentos| + 1
    ensures r.pagamentos[..|h.pagamentos|] == h.pagamentos
    ensures r.pagamentos[|h.pagamentos|] == pagamentoId
  {
    h.(pagamentos := h.pagamentos + [pagamentoId])
  }

  /** Appending never drops or reorders an entry already in the history. */
  lemma {:induction false} AnexarPreserva(h: Historico, pagamentoId: int, i: int)
    requires 0 <= i < |h.pagamentos|
    ensures Anexar(h, pagamentoId).pagamentos[i] == h.pagamentos[i]
  {
    var r := Anexar(h, pagamentoId);
    assert r.pagamentos[..|h.pagamentos|][i] == h.pagamentos[i];
  }

  /** `pagamentoRepository.save` of an object that may or may not be stored already. */
  method Salvar(db: Db, e: PagamentoEntity, hoje: LocalDate)
    requires db.Valid()
    modifies db`pagamentos, db`nextId, e`id, e`status
    ensures db.Valid()
    ensures e.id.Some?
    ensures old(e.id).Some? && old(e.id).value in old(db.pagamentos) ==>
              e.id == old(e.id) && db.nextId == old(db.nextId)
    ensures !(old(e.id).Some? && old(e.id).value in old(db.pagamentos)) ==>
              e.id == Some(old(db.nextId)) && db.nextId == old(db.nextId) + 1
    ensures e.Row() == AposHook(old(e.Row()).(id := e.id), hoje)
    ensures db.pagamentos == old(db.pagamentos)[e.id.value := e.Row()]
  {
    if e.id.Some? && e.id.value in db.pagamentos {
      SalvarExistente(db, e, hoje);
    } else {
      Persistir(db, e, hoje);
    }
  }

  /** `registrar`. */
  method Registrar(db: Db, e: PagamentoEntity, aluguelId: int, hoje: LocalDate) returns (r: Result<Pagamento, Failure>)
    requires db.Valid()
    modifies db`pagamentos, db`nextId, db`historicos, e`id, e`status, e`aluguelId
    ensures db.Valid()
    ensures aluguelId !in db.alugueis ==> r == Err(NotFound("Aluguel não encontrado"))
    ensures aluguelId in db.alugueis && db.alugueis[aluguelId].status != ATIVO ==> r == Err(Business(MSG_ALUGUEL_INATIVO))
    ensures aluguelId in db.alugueis && db.alugueis[aluguelId].status == ATIVO
            && (db.alugueis[aluguelId].clienteId !in db.clientes
                || forall k :: k in old(db.historicos) ==> old(db.historicos)[k].clienteId != db.alugueis[aluguelId].clienteId)
            ==> r.Err? && r.error.NotFound?
    ensures r.Err? ==> db.pagamentos == old(db.pagamentos) && db.nextId == old(db.nextId)
                       && db.historicos == old(db.historicos)
    ensures r.Ok? ==> aluguelId in db.alugueis && db.alugueis[aluguelId].status == ATIVO
    ensures r.Ok? ==> r.value.id.Some? && r.value == AposHook(Registrado(old(e.Row()), aluguelId).(id := r.value.id), hoje)
    ensures r.Ok? ==> db.pagamentos == old(db.pagamentos)[r.value.id.value := r.value]
    ensures r.Ok? ==> exists h: Historico :: h.id in old(db.historicos) && old(db.historicos)[h.id] == h
                                  && h.clienteId == db.alugueis[aluguelId].clienteId
                                  && db.historicos == old(db.historicos)[h.id := Anexar(h, r.value.id.value)]
  {
    var aluguel := BuscarAluguel(db, aluguelId);
    if aluguel.Err? {
      return Err(aluguel.error);
    }
    if aluguel.value.status != ATIVO {
      return Err(Business(MSG_ALUGUEL_INATIVO));
    }
    r := RegistrarAtivo(db, e, aluguel.value, hoje);
  }

  /** `registrar` once the lease is found and active: the save and the history, rolled back together. */
  method RegistrarAtivo(db: Db, e: PagamentoEntity, aluguel: Aluguel, hoje: LocalDate) returns (r: Result<Pagamento, Failure>)
    requires db.Valid()
    modifies db`pagamentos, db`nextId, db`historicos, e`id, e`status, e`aluguelId
    ensures db.Valid()
    ensures aluguel.clienteId !in db.clientes
            || (forall k :: k in old(db.historicos) ==> old(db.historicos)[k].clienteId != aluguel.clienteId)
            ==> r.Err? && r.error.NotFound?
    ensures r.Err? ==> db.pagamentos == old(db.pagamentos) && db.nextId == old(db.nextId)
                       && db.historicos == old(db.historicos)
    ensures r.Ok? ==> r.value.id.Some? && r.value == AposHook(Registrado(old(e.Row()), aluguel.id).(id := r.value.id), hoje)
    ensures r.Ok? ==> db.pagamentos == old(db.pagamentos)[r.value.id.value := r.value]
    ensures r.Ok? ==> exists h: Historico :: h.id in old(db.historicos) && old(db.historicos)[h.id] == h
                                  && h.clienteId == aluguel.clienteId
                                  && db.historicos == old(db.historicos)[h.id := Anexar(h, r.value.id.value)]
  {
    ghost var antes := e.Row();
    e.SetAluguel(aluguel.id);
    e.SetStatus(PENDENTE);
    assert e.Row() == Registrado(antes, aluguel.id);
    var pagamentosAntes, proximoAntes := db.pagamentos, db.nextId;
    Salvar(db, e, hoje);
    var salvo := e.Row();
    r := AnexarOuDesfazer(db, aluguel.clienteId, salvo, pagamentosAntes, proximoAntes);
  }

  /**
   * The history step of `registrar` after the save: on failure the
   * transaction is rolled back, and the payments table and the id counter
   * are as they were before the save.
   */
  method AnexarOuDesfazer(db: Db, clienteId: int, salvo: Pagamento, pagamentosAntes: map<int, Pagamento>, proximoAntes: int)
    returns (r: Result<Pagamento, Failure>)
    requires db.Valid() && salvo.id.Some?
    requires TabelasValidas(db.imoveis, db.alugueis, pagamentosAntes, db.clientes, db.administradores,
                            db.proprietarios, db.historicos, proximoAntes)
    modifies db`pagamentos, db`nextId, db`historicos
    ensures db.Valid()
    ensures clienteId !in db.clientes || (forall k :: k in old(db.historicos) ==> old(db.historicos)[k].clienteId != clienteId)
            ==> r.Err? && r.error.NotFound?
    ensures r.Err? ==> db.pagamentos == pagamentosAntes && db.nextId == proximoAntes && db.historicos == old(db.historicos)
    ensures r.Ok? ==> r.value == salvo && db.pagamentos == old(db.pagamentos) && db.nextId == old(db.nextId)
    ensures r.Ok? ==> exists h: Historico :: h.id in old(db.historicos) && old(db.historicos)[h.id] == h
                                  && h.clienteId == clienteId
                                  && db.historicos == old(db.historicos)[h.id := Anexar(h, salvo.id.value)]
  {
    var historico := AnexarAoHistorico(db, clienteId, salvo.id.value);
    if historico.Err? {
      db.pagamentos, db.nextId := pagamentosAntes, proximoAntes;
      return Err(historico.error);
    }
    return Ok(salvo);
  }

  /**
   * The history part of `registrar`: `buscarPorCliente`, then adding the
   * saved payment to the list and saving the history.
   */
  method AnexarAoHistorico(db: Db, clienteId: int, pagamentoId: int) returns (r: Result<Historico, Failure>)
    requires db.Valid()
    modifies db`historicos
    ensures db.Valid()
    ensures clienteId !in db.clientes || (forall k :: k in old(db.historicos) ==> old(db.historicos)[k].clienteId != clienteId)
            ==> r.Err?
    ensures r.Err? ==> r.error.NotFound? && db.historicos == old(db.historicos)
    ensures r.Ok? ==> r.value.id in old(db.historicos) && old(db.historicos)[r.value.id] == r.value
                      && r.value.clienteId == clienteId
                      && db.historicos == old(db.historicos)[r.value.id := Anexar(r.value, pagamentoId)]
  {
    r := BuscarHistoricoDoCliente(db, clienteId);
    if r.Ok? {
      db.historicos := db.historicos[r.value.id := Anexar(r.value, pagamentoId)];
    }
  }

  /** `confirmarPagamento`: the payment becomes PAGO, dated today; the hook then leaves it alone. */
  method ConfirmarPagamento(db: Db, id: int, hoje: LocalDate) returns (r: Result<(), Failure>)
    requires db.Valid()
    modifies db`pagamentos
    ensures db.Valid()
    ensures r.Ok? <==> id in old(db.pagamentos)
    ensures r.Err? ==> r.error == NotFound("Pagamento não encontrado") && db.pagamentos == old(db.pagamentos)
    ensures r.Ok? ==> db.pagamentos == old(db.pagamentos)[id := old(db.pagamentos)[id].(status := PAGO, dataPagamento := Some(hoje))]
  {
    var p := BuscarPagamento(db, id);
    if p.Err? {
      return Err(p.error);
    }
    var e := new PagamentoEntity.FromRow(p.value);
    e.SetStatus(PAGO);
    e.SetDataPagamento(Some(hoje));
    SalvarExistente(db, e, hoje);
    return Ok(());
  }

  /** `excluir`: a confirmed payment cannot be deleted. */
  method Excluir(db: Db, id: int) returns (r: Result<(), Failure>)
    requires db.Valid()
    modifies db`pagamentos
    ensures db.Valid()
    ensures id !in old(db.pagamentos) ==> r == Err(NotFound("Pagamento não encontrado"))
    ensures id in old(db.pagamentos) && old(db.pagamentos)[id].status == PAGO ==> r == Err(Business(MSG_PAGAMENTO_CONFIRMADO))
    ensures r.Ok? <==> id in old(db.pagamentos) && old(db.pagamentos)[id].status != PAGO
    ensures r.Ok? ==> db.pagamentos == old(db.pagamentos) - {id}
    ensures r.Err? ==> db.pagamentos == old(db.pagamentos)
  {
    var p := BuscarPagamento(db, id);
    if p.Err? {
      return Err(p.error);
    }
    if p.value.status == PAGO {
      return Err(Business(MSG_PAGAMENTO_CONFIRMADO));
    }
    db.pagamentos := db.pagamentos - {id};
    return Ok(());
  }

  /** `pagamentoRepository.findByAluguel`: the rows of one lease. */
  function DoAluguel(ps: map<int, Pagamento>, aluguelId: int): (r: map<int, Pagamento>)
    ensures forall k :: k in r <==> k in ps && ps[k].aluguelId == Some(aluguelId)
    ensures forall k :: k in r ==> r[k] == ps[k]
  {
    map k | k in ps && ps[k].aluguelId == Some(aluguelId) :: ps[k]
  }

  /** `listarPorAluguel`: the lease must exist; the result is exactly its payments. */
  function ListarPorAluguel(db: Db, aluguelId: int): (r: Result<map<int, Pagamento>, Failure>)
    reads db
    ensures r.Err? <==> aluguelId !in db.alugueis
    ensures r.Err? ==> r.error == NotFound("Aluguel não encontrado")
    ensures r.Ok? ==> forall k :: k in r.value <==> k in db.pagamentos && db.pagamentos[k].aluguelId == Some(aluguelId)
    ensures r.Ok? ==> forall k :: k in r.value ==> r.value[k] == db.pagamentos[k]
  {
    var a := BuscarAluguel(db, aluguelId);
    if a.Err? then Err(a.error) else Ok(DoAluguel(db.pagamentos, aluguelId))
  }

  /** The table once `novos` have been inserted in order, with ids from `base` on, each through the hook. */
  function Inseridos(ps: map<int, Pagamento>, base: int, novos: seq<Pagamento>, n: nat, hoje: LocalDate): (r: map<int, Pagamento>)
    requires n <= |novos|
    ensures forall k :: k in r <==> k in ps || base <= k < base + n
    ensures forall k :: k in r && base <= k < base + n ==> r[k] == AposHook(novos[k - base].(id := Some(k)), hoje)
    ensures forall k :: k in r && !(base <= k < base + n) ==> r[k] == ps[k]
  {
    ps + map k | base <= k < base + n :: AposHook(novos[k - base].(id := Some(k)), hoje)
  }

  lemma InseridosPasso(ps: map<int, Pagamento>, base: int, novos: seq<Pagamento>, n: nat, hoje: LocalDate)
    requires n < |novos|
    ensures Inseridos(ps, base, novos, n + 1, hoje)
            == Inseridos(ps, base, novos, n, hoje)[base + n := AposHook(novos[n].(id := Some(base + n)), hoje)]
  {
    var a := Inseridos(ps, base, novos, n + 1, hoje);
    var c := Inseridos(ps, base, novos, n, hoje);
    var b := c[base + n := AposHook(novos[n].(id := Some(base + n)), hoje)];
    forall k | k in a
      ensures k in b && a[k] == b[k]
    {
      if k == base + n {
      } else if base <= k < base + n {
        assert a[k] == c[k];
      } else {
        assert a[k] == ps[k] == c[k];
      }
    }
    assert a.Keys == b.Keys;
  }

  /** Nothing inserted yet: the table as it was. */
  lemma InseridosVazio(ps: map<int, Pagamento>, base: int, novos: seq<Pagamento>, hoje: LocalDate)
    ensures Inseridos(ps, base, novos, 0, hoje) == ps
  {
    var a := Inseridos(ps, base, novos, 0, hoje);
    assert a.Keys == ps.Keys;
  }

  /**
   * `criarTodos`, whose body is not part of this model: taken to be
   * `saveAll`, which inserts each new payment in order through the hook.
   */
  method CriarTodos(db: Db, novos: seq<Pagamento>, hoje: LocalDate)
    requires db.Valid()
    modifies db`pagamentos, db`nextId
    ensures db.Valid()
    ensures db.nextId == old(db.nextId) + |novos|
    ensures db.pagamentos == Inseridos(old(db.pagamentos), old(db.nextId), novos, |novos|, hoje)
  {
    ghost var ps := db.pagamentos;
    var base := db.nextId;
    var i := 0;
    InseridosVazio(ps, base, novos, hoje);
    while i < |novos|
      invariant 0 <= i <= |novos|
      invariant db.Valid()
      invariant db.nextId == base + i
      invariant db.pagamentos == Inseridos(ps, base, novos, i, hoje)
    {
      InserirProximo(db, ps, base, novos, i, hoje);
      i := i + 1;
    }
  }

  /** One iteration of `saveAll`: the table holds one more of `novos`. */
  method InserirProximo(db: Db, ghost ps: map<int, Pagamento>, base: int, novos: seq<Pagamento>, i: nat, hoje: LocalDate)
    requires db.Valid() && i < |novos|
    requires db.nextId == base + i && db.pagamentos == Inseridos(ps, base, novos, i, hoje)
    modifies db`pagamentos, db`nextId
    ensures db.Valid()
    ensures db.nextId == base + i + 1 && db.pagamentos == Inseridos(ps, base, novos, i + 1, hoje)
  {
    Inserir(db, novos[i], hoje);
    InseridosPasso(ps, base, novos, i, hoje);
  }

  /** One `save` of `saveAll`: a new entity for the payment, inserted under the next id. */
  method Inserir(db: Db, p: Pagamento, hoje: LocalDate)
    requires db.Valid()
    modifies db`pagamentos, db`nextId
    ensures db.Valid()
    ensures db.nextId == old(db.nextId) + 1
    ensures db.pagamentos == old(db.pagamentos)[old(db.nextId) := AposHook(p.(id := Some(old(db.nextId))), hoje)]
  {
    var e := new PagamentoEntity.FromRow(p.(id := None));
    Persistir(db, e, hoje);
    assert p.(id := None).(id := Some(old(db.nextId))) == p.(id := Some(old(db.nextId)));
  }

  /** Inserting never overwrites a row that was already stored. */
  lemma InseridosPreserva(ps: map<int, Pagamento>, base: int, novos: seq<Pagamento>, hoje: LocalDate, k: int)
    requires k in ps && k < base
    ensures Inseridos(ps, base, novos, |novos|, hoje)[k] == ps[k]
  {
  }
}
