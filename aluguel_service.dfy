/**
 * `AluguelService`: the availability test, the monthly payment plan, lease
 * creation and deletion, status changes and the period listing.
 */
module AluguelService {
  import opened Wrappers
  import opened Dates
  import opened Entities
  import opened Database
  import opened PagamentoModel
  import opened PagamentoService
  import opened Seqs
  import opened Text

  const MSG_INDISPONIVEL := "Imóvel não está disponível no período selecionado"
  const MSG_EXCLUIR_ATIVO := "Não é possível excluir um aluguel ativo. Cancele o aluguel primeiro."
  const MSG_EXCLUIR_PAGO := "Não é possível excluir um aluguel que possui pagamentos já realizados"
  const PREFIXO_GERAR := "Erro ao gerar pagamentos mensais: "
  const PREFIXO_EXCLUIR := "Erro ao excluir aluguel: "
  /** Stands for the message of the `DateTimeException` that `withDayOfMonth` throws. */
  const DETALHE_DATA_INVALIDA := "Invalid date"

  // ---------------------------------------------------------------- availability

  /** The loop's test: the requested period starts before the lease ends and ends after it starts. */
  predicate Sobrepoe(a: Aluguel, dataInicio: LocalDate, dataFim: LocalDate)
  {
    Before(dataInicio, a.dataFim) && After(dataFim, a.dataInicio)
  }

  /** `findByImovelAndStatusAndDataFimGreaterThanEqual(imovel, "ATIVO", dataInicio)`. */
  function Consulta(alugueis: map<int, Aluguel>, imovelId: int, dataInicio: LocalDate): (r: set<int>)
    ensures forall k :: k in r <==> k in alugueis && alugueis[k].imovelId == imovelId
                                    && alugueis[k].status == ATIVO && NotAfter(dataInicio, alugueis[k].dataFim)
  {
    set k | k in alugueis && alugueis[k].imovelId == imovelId && alugueis[k].status == ATIVO
            && NotAfter(dataInicio, alugueis[k].dataFim)
  }

  /** What `verificarDisponibilidade` answers for a property that exists. */
  predicate Disponivel(imovel: Imovel, alugueis: map<int, Aluguel>, dataInicio: LocalDate, dataFim: LocalDate)
  {
    imovel.status == DISPONIVEL
    && forall k :: k in Consulta(alugueis, imovel.id, dataInicio) ==> !Sobrepoe(alugueis[k], dataInicio, dataFim)
  }

  /** `verificarDisponibilidade`: status guard, query, then an early-return search for an overlap. */
  method VerificarDisponibilidade(db: Db, imovelId: int, dataInicio: LocalDate, dataFim: LocalDate)
    returns (r: Result<bool, Failure>)
    requires db.Valid()
    ensures imovelId !in db.imoveis ==> r == Err(NotFound("Imóvel não encontrado"))
    ensures imovelId in db.imoveis ==> r == Ok(Disponivel(db.imoveis[imovelId], db.alugueis, dataInicio, dataFim))
  {
    var imovel := BuscarImovel(db, imovelId);
    if imovel.Err? {
      return Err(imovel.error);
    }
    if imovel.value.status != DISPONIVEL {
      return Ok(false);
    }
    var alugueis := Consulta(db.alugueis, imovel.value.id, dataInicio);
    if alugueis == {} {
      return Ok(true);
    }
    var restantes := alugueis;
    while restantes != {}
      invariant restantes <= alugueis
      invariant forall k :: k in alugueis && k !in restantes ==> !Sobrepoe(db.alugueis[k], dataInicio, dataFim)
      decreases restantes
    {
      var k := Pick(restantes);
      if Before(dataInicio, db.alugueis[k].dataFim) && After(dataFim, db.alugueis[k].dataInicio) {
        return Ok(false);
      }
      restantes := restantes - {k};
    }
    return Ok(true);
  }

  /** A property whose status is not DISPONIVEL is never available. */
  lemma IndisponivelPorStatus(imovel: Imovel, alugueis: map<int, Aluguel>, dataInicio: LocalDate, dataFim: LocalDate)
    requires imovel.status != DISPONIVEL
    ensures !Disponivel(imovel, alugueis, dataInicio, dataFim)
  {
  }

  /** With no active lease of the property ending on or after the requested start, it is available. */
  lemma DisponivelSemConsulta(imovel: Imovel, alugueis: map<int, Aluguel>, dataInicio: LocalDate, dataFim: LocalDate)
    requires imovel.status == DISPONIVEL
    requires Consulta(alugueis, imovel.id, dataInicio) == {}
    ensures Disponivel(imovel, alugueis, dataInicio, dataFim)
  {
  }

  /**
   * The query's `dataFim >= dataInicio` filter changes nothing: a DISPONIVEL
   * property is unavailable exactly when some ACTIVE lease of it strictly
   * overlaps the requested period.
   */
  lemma DisponivelSeSemSobreposicao(imovel: Imovel, alugueis: map<int, Aluguel>, dataInicio: LocalDate, dataFim: LocalDate)
    ensures Disponivel(imovel, alugueis, dataInicio, dataFim) <==>
            imovel.status == DISPONIVEL
            && forall k :: k in alugueis && alugueis[k].imovelId == imovel.id && alugueis[k].status == ATIVO
                           ==> !Sobrepoe(alugueis[k], dataInicio, dataFim)
  {
    forall k | k in alugueis && alugueis[k].imovelId == imovel.id && alugueis[k].status == ATIVO
                 && Sobrepoe(alugueis[k], dataInicio, dataFim)
      ensures k in Consulta(alugueis, imovel.id, dataInicio)
    {
      BeforeTrichotomy(dataInicio, alugueis[k].dataFim);
    }
  }

  /** A period that ends on the day a lease starts, or starts on the day it ends, does not overlap it. */
  lemma ExtremosQueSeTocam(a: Aluguel, dataInicio: LocalDate, dataFim: LocalDate)
    requires dataFim == a.dataInicio || dataInicio == a.dataFim
    ensures !Sobrepoe(a, dataInicio, dataFim)
  {
    BeforeTrichotomy(dataInicio, a.dataFim);
    BeforeTrichotomy(dataFim, a.dataInicio);
  }

  /** Leases of other properties, and leases that are not ATIVO, never block a request. */
  lemma SoAtivosDoImovelBloqueiam(imovel: Imovel, alugueis: map<int, Aluguel>, k: int, a: Aluguel,
                                  dataInicio: LocalDate, dataFim: LocalDate)
    requires a.imovelId != imovel.id || a.status != ATIVO
    ensures Disponivel(imovel, alugueis[k := a], dataInicio, dataFim)
            <== Disponivel(imovel, alugueis - {k}, dataInicio, dataFim)
  {
    DisponivelSeSemSobreposicao(imovel, alugueis[k := a], dataInicio, dataFim);
    DisponivelSeSemSobreposicao(imovel, alugueis - {k}, dataInicio, dataFim);
    var m := alugueis[k := a];
    if Disponivel(imovel, alugueis - {k}, dataInicio, dataFim) {
      forall j | j in m && m[j].imovelId == imovel.id && m[j].status == ATIVO
        ensures !Sobrepoe(m[j], dataInicio, dataFim)
      {
        assert j != k;
        assert j in alugueis - {k};
      }
    }
  }

  // ---------------------------------------------------------------- payment plan

  /** `MONTHS.between(dataInicio.withDayOfMonth(1), dataFim.withDayOfMonth(1)) + 1`; not positive when the end's month precedes the start's. */
  function NumeroDeMeses(a: Aluguel): int
  {
    MonthsBetweenFirstDays(a.dataInicio, a.dataFim) + 1
  }

  /** `dataInicio.plusMonths(i).withDayOfMonth(diaPagamento)`, or None where that throws. */
  function DataDaParcela(a: Aluguel, i: int): (r: Option<LocalDate>)
    ensures r.Some? <==> 1 <= a.diaPagamento <= DaysInMonth(PlusMonths(a.dataInicio, i).year, PlusMonths(a.dataInicio, i).month)
    ensures r.Some? ==> MonthIndex(r.value) == MonthIndex(a.dataInicio) + i && r.value.day == a.diaPagamento
  {
    var mes := PlusMonths(a.dataInicio, i);
    match WithDayOfMonth(mes, a.diaPagamento)
    case None => None
    case Some(d) => var dia: LocalDate := d; Some(dia)
  }

  /** Payment `i` of the plan, as the builder makes it: no id yet, the lease's value, PENDENTE. */
  function Parcela(a: Aluguel, d: LocalDate): (p: Pagamento)
    ensures p.id.None? && p.dataPagamento == Some(d) && p.valor == a.valorMensal
    ensures p.status == PENDENTE && p.aluguelId == Some(a.id)
    ensures p.formaPagamento.None? && p.observacoes.None?
  {
    Pagamento(None, Some(d), a.valorMensal, PENDENTE, None, None, Some(a.id))
  }

  predicate TodasAsDatasExistem(a: Aluguel)
  {
    forall i :: 0 <= i < NumeroDeMeses(a) ==> DataDaParcela(a, i).Some?
  }

  function Max0(n: int): nat
  {
    if n < 0 then 0 else n
  }

  /** The list `gerarPagamentosMensais` builds when no month lacks the payment day. */
  function Plano(a: Aluguel): (r: seq<Pagamento>)
    requires TodasAsDatasExistem(a)
    ensures |r| == Max0(NumeroDeMeses(a))
  {
    seq(Max0(NumeroDeMeses(a)), i requires 0 <= i < Max0(NumeroDeMeses(a)) => Parcela(a, DataDaParcela(a, i).value))
  }

  /** `gerarPagamentosMensais`. */
  method GerarPagamentosMensais(a: Aluguel) returns (r: Result<seq<Pagamento>, Failure>)
    ensures r.Ok? <==> TodasAsDatasExistem(a)
    ensures r.Ok? ==> r.value == Plano(a)
    ensures r.Err? ==> r.error.Business? && IsPrefix(PREFIXO_GERAR, r.error.message)
  {
    var meses := NumeroDeMeses(a);
    var pagamentos: seq<Pagamento> := [];
    var i := 0;
    while i < meses
      invariant 0 <= i <= Max0(meses)
      invariant |pagamentos| == i
      invariant forall j :: 0 <= j < i ==> DataDaParcela(a, j).Some? && pagamentos[j] == Parcela(a, DataDaParcela(a, j).value)
    {
      var dataPagamento := DataDaParcela(a, i);
      if dataPagamento.None? {
        r := Err(Business(PREFIXO_GERAR + DETALHE_DATA_INVALIDA));
        assert IsPrefix(PREFIXO_GERAR, r.error.message) by {
          assert r.error.message[..|PREFIXO_GERAR|] == PREFIXO_GERAR;
        }
        return;
      }
      pagamentos := pagamentos + [Parcela(a, dataPagamento.value)];
      i := i + 1;
    }
    return Ok(pagamentos);
  }

  /** Payment `i` falls in the `i`-th month from the start, on day `diaPagamento`, for the lease's value. */
  lemma PlanoUmPorMes(a: Aluguel, i: int)
    requires TodasAsDatasExistem(a) && 0 <= i < |Plano(a)|
    ensures Plano(a)[i].dataPagamento.Some?
    ensures MonthIndex(Plano(a)[i].dataPagamento.value) == MonthIndex(a.dataInicio) + i
    ensures Plano(a)[i].dataPagamento.value.day == a.diaPagamento
    ensures Plano(a)[i].valor == a.valorMensal && Plano(a)[i].status == PENDENTE && Plano(a)[i].aluguelId == Some(a.id)
  {
  }

  /** A non-empty plan starts in the start's month and ends in the end's month. */
  lemma PlanoCobreOPeriodo(a: Aluguel)
    requires TodasAsDatasExistem(a) && |Plano(a)| > 0
    ensures MonthIndex(Plano(a)[0].dataPagamento.value) == MonthIndex(a.dataInicio)
    ensures MonthIndex(Plano(a)[|Plano(a)| - 1].dataPagamento.value) == MonthIndex(a.dataFim)
  {
    PlanoUmPorMes(a, 0);
    PlanoUmPorMes(a, |Plano(a)| - 1);
  }

  lemma MesAnteriorAntes(x: LocalDate, y: LocalDate)
    requires MonthIndex(x) < MonthIndex(y)
    ensures Before(x, y)
  {
  }

  /** The plan's due dates strictly increase. */
  lemma PlanoOrdenado(a: Aluguel, i: int, j: int)
    requires TodasAsDatasExistem(a) && 0 <= i < j < |Plano(a)|
    ensures Before(Plano(a)[i].dataPagamento.value, Plano(a)[j].dataPagamento.value)
  {
    PlanoUmPorMes(a, i);
    PlanoUmPorMes(a, j);
    MesAnteriorAntes(Plano(a)[i].dataPagamento.value, Plano(a)[j].dataPagamento.value);
  }

  /** An end date in an earlier month than the start gives an empty plan. */
  lemma PlanoVazio(a: Aluguel)
    requires MonthIndex(a.dataFim) < MonthIndex(a.dataInicio)
    ensures TodasAsDatasExistem(a) && Plano(a) == []
  {
  }

  /** A payment day from 1 to 28 exists in every month, so the plan is always built. */
  lemma DiaAte28SempreGera(a: Aluguel)
    requires 1 <= a.diaPagamento <= 28
    ensures TodasAsDatasExistem(a)
  {
  }

  /** A payment day outside 1..31 fails for any lease with at least one month. */
  lemma DiaForaDoMesFalha(a: Aluguel)
    requires a.diaPagamento < 1 || a.diaPagamento > 31
    requires NumeroDeMeses(a) >= 1
    ensures !TodasAsDatasExistem(a)
  {
    assert DataDaParcela(a, 0).None?;
  }

  /** Day 31 fails as soon as the plan reaches February: a lease from 15 January to 15 March 2025. */
  lemma Dia31FalhaEmFevereiro()
    ensures var a := Aluguel(1, 1, 1, Date(2025, 1, 15), Date(2025, 3, 15), ATIVO, 100000, 31);
            NumeroDeMeses(a) == 3 && !TodasAsDatasExistem(a)
  {
    var a := Aluguel(1, 1, 1, Date(2025, 1, 15), Date(2025, 3, 15), ATIVO, 100000, 31);
    assert PlusMonths(a.dataInicio, 1) == Date(2025, 2, 15);
    assert DataDaParcela(a, 1).None?;
  }

  // ---------------------------------------------------------------- criar

  /** The fields of a new lease that come from the request. */
  datatype Proposta = Proposta(dataInicio: LocalDate, dataFim: LocalDate, valorMensal: int, diaPagamento: int)

  /** The lease `criar` saves: the request's fields, the client and property, status ATIVO. */
  function Novo(p: Proposta, id: int, clienteId: int, imovelId: int): (a: Aluguel)
    ensures a.id == id && a.clienteId == clienteId && a.imovelId == imovelId && a.status == ATIVO
    ensures a.dataInicio == p.dataInicio && a.dataFim == p.dataFim
    ensures a.valorMensal == p.valorMensal && a.diaPagamento == p.diaPagamento
  {
    Aluguel(id, clienteId, imovelId, p.dataInicio, p.dataFim, ATIVO, p.valorMensal, p.diaPagamento)
  }

  /** `aluguelRepository.save` of a new lease. */
  method SalvarNovo(db: Db, a: Aluguel) returns (salvo: Aluguel)
    requires db.Valid()
    modifies db`alugueis, db`nextId
    ensures db.Valid()
    ensures salvo == a.(id := old(db.nextId))
    ensures db.nextId == old(db.nextId) + 1
    ensures db.alugueis == old(db.alugueis)[salvo.id := salvo]
  {
    salvo := a.(id := db.nextId);
    db.nextId := db.nextId + 1;
    db.alugueis := db.alugueis[salvo.id := salvo];
  }

  /** `criar`. */
  method Criar(db: Db, p: Proposta, clienteId: int, imovelId: int, hoje: LocalDate) returns (r: Result<Aluguel, Failure>)
    requires db.Valid()
    modifies db`alugueis, db`pagamentos, db`nextId
    ensures db.Valid()
    ensures clienteId !in db.clientes ==> r == Err(NotFound("Cliente não encontrado"))
    ensures clienteId in db.clientes && imovelId !in db.imoveis ==> r == Err(NotFound("Imóvel não encontrado"))
    ensures clienteId in db.clientes && imovelId in db.imoveis
            && !Disponivel(db.imoveis[imovelId], old(db.alugueis), p.dataInicio, p.dataFim)
            ==> r == Err(Business(MSG_INDISPONIVEL))
    ensures r.Ok? <==> clienteId in db.clientes && imovelId in db.imoveis
                       && Disponivel(db.imoveis[imovelId], old(db.alugueis), p.dataInicio, p.dataFim)
                       && TodasAsDatasExistem(Novo(p, old(db.nextId), clienteId, imovelId))
    ensures r.Err? ==> r.error.NotFound? || r.error.Business?
    ensures r.Err? ==> db.alugueis == old(db.alugueis) && db.pagamentos == old(db.pagamentos) && db.nextId == old(db.nextId)
    ensures r.Ok? ==> r.value == Novo(p, old(db.nextId), clienteId, imovelId)
    ensures r.Ok? ==> db.alugueis == old(db.alugueis)[r.value.id := r.value]
    ensures r.Ok? ==> db.pagamentos == Inseridos(old(db.pagamentos), old(db.nextId) + 1, Plano(r.value), |Plano(r.value)|, hoje)
  {
    var cliente := BuscarCliente(db, clienteId);
    if cliente.Err? {
      return Err(cliente.error);
    }
    var imovel := BuscarImovel(db, imovelId);
    if imovel.Err? {
      return Err(imovel.error);
    }
    var disponivel := VerificarDisponibilidade(db, imovelId, p.dataInicio, p.dataFim);
    if !disponivel.value {
      return Err(Business(MSG_INDISPONIVEL));
    }
    var novo := Novo(p, db.nextId, clienteId, imovelId);
    r := SalvarComPlano(db, novo, hoje);
  }

  /**
   * The rest of `criar` once the checks have passed: save the lease, build
   * its plan, save the plan; when the plan cannot be built the transaction
   * rolls back.
   */
  method SalvarComPlano(db: Db, a: Aluguel, hoje: LocalDate) returns (r: Result<Aluguel, Failure>)
    requires db.Valid() && a.id == db.nextId
    modifies db`alugueis, db`pagamentos, db`nextId
    ensures db.Valid()
    ensures r.Ok? <==> TodasAsDatasExistem(a)
    ensures r.Err? ==> r.error.Business?
    ensures r.Err? ==> db.alugueis == old(db.alugueis) && db.pagamentos == old(db.pagamentos) && db.nextId == old(db.nextId)
    ensures r.Ok? ==> r.value == a
    ensures r.Ok? ==> db.alugueis == old(db.alugueis)[r.value.id := r.value]
    ensures r.Ok? ==> db.pagamentos == Inseridos(old(db.pagamentos), old(db.nextId) + 1, Plano(r.value), |Plano(r.value)|, hoje)
  {
    var alugueisAntes, proximoAntes := db.alugueis, db.nextId;
    var salvo := SalvarNovo(db, a);
    assert salvo == a;
    var pagamentos := GerarPagamentosMensais(salvo);
    if pagamentos.Err? {
      db.alugueis, db.nextId := alugueisAntes, proximoAntes;
      return Err(pagamentos.error);
    }
    CriarTodos(db, pagamentos.value, hoje);
    return Ok(salvo);
  }

  /** Once created, a lease blocks every later request for the same property that strictly overlaps it. */
  lemma CriadoBloqueia(imovel: Imovel, alugueis: map<int, Aluguel>, a: Aluguel, dataInicio: LocalDate, dataFim: LocalDate)
    requires a.imovelId == imovel.id && a.status == ATIVO
    requires Sobrepoe(a, dataInicio, dataFim)
    ensures !Disponivel(imovel, alugueis[a.id := a], dataInicio, dataFim)
  {
    DisponivelSeSemSobreposicao(imovel, alugueis[a.id := a], dataInicio, dataFim);
    assert a.id in alugueis[a.id := a] && alugueis[a.id := a][a.id] == a;
  }

  // ---------------------------------------------------------------- status and listing

  /** `atualizarStatus`: only the named lease's status changes. */
  method AtualizarStatus(db: Db, id: int, status: string) returns (r: Result<(), Failure>)
    requires db.Valid()
    modifies db`alugueis
    ensures db.Valid()
    ensures r.Ok? <==> id in old(db.alugueis)
    ensures r.Err? ==> r.error == NotFound("Aluguel não encontrado") && db.alugueis == old(db.alugueis)
    ensures r.Ok? ==> db.alugueis == old(db.alugueis)[id := old(db.alugueis)[id].(status := status)]
  {
    var a := BuscarAluguel(db, id);
    if a.Err? {
      return Err(a.error);
    }
    db.alugueis := db.alugueis[id := a.value.(status := status)];
    return Ok(());
  }

  /** Spring Data's `Between`: both bounds included. */
  predicate Entre(d: Date, inicio: Date, fim: Date)
  {
    NotAfter(inicio, d) && NotAfter(d, fim)
  }

  /** `listarPorPeriodo`: `findByDataInicioBetweenOrDataFimBetween(inicio, fim, inicio, fim)`. */
  function ListarPorPeriodo(db: Db, inicio: LocalDate, fim: LocalDate): (r: map<int, Aluguel>)
    reads db
    ensures forall k :: k in r <==> k in db.alugueis
                                    && (Entre(db.alugueis[k].dataInicio, inicio, fim) || Entre(db.alugueis[k].dataFim, inicio, fim))
    ensures forall k :: k in r ==> r[k] == db.alugueis[k]
  {
    map k | k in db.alugueis && (Entre(db.alugueis[k].dataInicio, inicio, fim) || Entre(db.alugueis[k].dataFim, inicio, fim))
      :: db.alugueis[k]
  }

  /** A lease starting or ending on a bound of the period is listed. */
  lemma ListarPorPeriodoInclusivo(db: Db, inicio: LocalDate, fim: LocalDate, k: int)
    requires k in db.alugueis && NotAfter(inicio, fim)
    requires db.alugueis[k].dataInicio == inicio || db.alugueis[k].dataFim == fim
    ensures k in ListarPorPeriodo(db, inicio, fim)
  {
    BeforeTrichotomy(inicio, fim);
  }

  /** A lease that starts before the period and ends after it is not listed, though it covers the period. */
  lemma ListarPorPeriodoIgnoraEnvolvente(db: Db, inicio: LocalDate, fim: LocalDate, k: int)
    requires k in db.alugueis
    requires Before(db.alugueis[k].dataInicio, inicio) && After(db.alugueis[k].dataFim, fim)
    ensures k !in ListarPorPeriodo(db, inicio, fim)
  {
    BeforeTrichotomy(db.alugueis[k].dataInicio, inicio);
    BeforeTrichotomy(db.alugueis[k].dataFim, fim);
  }

  // ---------------------------------------------------------------- excluir

  /** The ids of a lease's PENDENTE payments: the ones the deletion loop removes. */
  function PendentesDoAluguel(ps: map<int, Pagamento>, aluguelId: int): (r: set<int>)
    ensures forall k :: k in r <==> k in ps && ps[k].aluguelId == Some(aluguelId) && ps[k].status == PENDENTE
  {
    set k | k in ps && ps[k].aluguelId == Some(aluguelId) && ps[k].status == PENDENTE
  }

  /** The ids of all of a lease's payments: the rows `CascadeType.ALL` on `Aluguel.pagamentos` removes with the lease. */
  function PagamentosDoAluguel(ps: map<int, Pagamento>, aluguelId: int): (r: set<int>)
    ensures forall k :: k in r <==> k in ps && ps[k].aluguelId == Some(aluguelId)
    ensures PendentesDoAluguel(ps, aluguelId) <= r
  {
    set k | k in ps && ps[k].aluguelId == Some(aluguelId)
  }

  predicate TemPagamentoRealizado(ps: map<int, Pagamento>, aluguelId: int)
  {
    exists k :: k in DoAluguel(ps, aluguelId) && DoAluguel(ps, aluguelId)[k].status == PAGO
  }

  lemma MapaMenosPasso(m: map<int, Pagamento>, feitos: set<int>, k: int)
    ensures m - feitos - {k} == m - (feitos + {k})
  {
    var a := m - feitos - {k};
    var b := m - (feitos + {k});
    assert a.Keys == b.Keys;
  }

  /** `excluir`. Failures other than a BusinessException reach the caller wrapped in one. */
  method Excluir(db: Db, id: int) returns (r: Result<(), Failure>)
    requires db.Valid()
    modifies db`alugueis, db`pagamentos
    ensures db.Valid()
    ensures id !in old(db.alugueis) ==> r == Err(Business(PREFIXO_EXCLUIR + "Aluguel não encontrado"))
    ensures id in old(db.alugueis) && old(db.alugueis)[id].status == ATIVO ==> r == Err(Business(MSG_EXCLUIR_ATIVO))
    ensures id in old(db.alugueis) && old(db.alugueis)[id].status != ATIVO && TemPagamentoRealizado(old(db.pagamentos), id)
            ==> r == Err(Business(MSG_EXCLUIR_PAGO))
    ensures r.Ok? <==> id in old(db.alugueis) && old(db.alugueis)[id].status != ATIVO
                       && !TemPagamentoRealizado(old(db.pagamentos), id)
    ensures r.Err? ==> db.alugueis == old(db.alugueis) && db.pagamentos == old(db.pagamentos)
    ensures r.Ok? ==> db.alugueis == old(db.alugueis) - {id}
    ensures r.Ok? ==> db.pagamentos == old(db.pagamentos) - PagamentosDoAluguel(old(db.pagamentos), id)
  {
    var aluguel := BuscarAluguel(db, id);
    if aluguel.Err? {
      return Err(Business(PREFIXO_EXCLUIR + aluguel.error.message));
    }
    if aluguel.value.status == ATIVO {
      return Err(Business(MSG_EXCLUIR_ATIVO));
    }
    var pagamentos := ListarPorAluguel(db, id);
    var ps := pagamentos.value;
    if exists k :: k in ps && ps[k].status == PAGO {
      return Err(Business(MSG_EXCLUIR_PAGO));
    }
    ghost var inicial := db.pagamentos;
    ExcluirPendentes(db, id, ps);
    ExcluirComCascata(db, id);
    CascataAbrangeLaco(inicial, id);
    return Ok(());
  }

  /** The loop of `excluir` over the lease's payments: every PENDENTE one is deleted, the others stay. */
  method ExcluirPendentes(db: Db, id: int, ps: map<int, Pagamento>)
    requires db.Valid()
    requires forall k :: k in ps <==> k in db.pagamentos && db.pagamentos[k].aluguelId == Some(id)
    requires forall k :: k in ps ==> ps[k] == db.pagamentos[k]
    modifies db`pagamentos
    ensures db.Valid()
    ensures db.pagamentos == old(db.pagamentos) - PendentesDoAluguel(old(db.pagamentos), id)
  {
    ghost var inicial := db.pagamentos;
    ghost var pendentes := PendentesDoAluguel(inicial, id);
    var restantes := ps.Keys;
    forall k | k in pendentes
      ensures k in restantes
    {
      assert k in ps;
    }
    assert pendentes - restantes == {};
    assert inicial - {} == inicial;
    while restantes != {}
      invariant restantes <= ps.Keys
      invariant db.Valid()
      invariant db.pagamentos == inicial - (pendentes - restantes)
      decreases restantes
    {
      var k := Pick(restantes);
      ghost var feitos := pendentes - restantes;
      if ps[k].status == PENDENTE {
        assert k in db.pagamentos;
        var excluido := PagamentoService.Excluir(db, k);
        MapaMenosPasso(inicial, feitos, k);
        assert feitos + {k} == pendentes - (restantes - {k});
      } else {
        assert feitos == pendentes - (restantes - {k});
      }
      restantes := restantes - {k};
    }
  }

  /** The deletion loop itself removes only PENDENTE payments; ATRASADO, CANCELADO and other rows stay. */
  lemma ExcluirSoRemovePendentes(ps: map<int, Pagamento>, id: int, k: int)
    requires k in ps && ps[k].status != PENDENTE
    ensures k in ps - PendentesDoAluguel(ps, id)
  {
  }

  /** `aluguelRepository.deleteById`: the lease goes, and the cascade of `Aluguel.pagamentos` takes its remaining payments with it. */
  method ExcluirComCascata(db: Db, id: int)
    requires db.Valid()
    modifies db`alugueis, db`pagamentos
    ensures db.Valid()
    ensures db.alugueis == old(db.alugueis) - {id}
    ensures db.pagamentos == old(db.pagamentos) - PagamentosDoAluguel(old(db.pagamentos), id)
  {
    db.pagamentos := db.pagamentos - PagamentosDoAluguel(db.pagamentos, id);
    db.alugueis := db.alugueis - {id};
  }

  /** Whatever the loop deleted first, the cascade leaves the same table: none of the lease's payments and every other row. */
  lemma CascataAbrangeLaco(ps: map<int, Pagamento>, id: int)
    ensures var aposLaco := ps - PendentesDoAluguel(ps, id);
            aposLaco - PagamentosDoAluguel(aposLaco, id) == ps - PagamentosDoAluguel(ps, id)
  {
    var aposLaco := ps - PendentesDoAluguel(ps, id);
    var a := aposLaco - PagamentosDoAluguel(aposLaco, id);
    var b := ps - PagamentosDoAluguel(ps, id);
    forall k | k in a
      ensures k in b && a[k] == b[k]
    {
      assert k in aposLaco;
    }
    forall k | k in b
      ensures k in a
    {
      assert k !in PendentesDoAluguel(ps, id);
    }
  }
}
