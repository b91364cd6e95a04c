/**
 * The client dashboard query (hooks/use-cliente-dashboard-data.ts), with the
 * two responses as parameters: the guards, the active leases, the join of the
 * grouped payments on their lease ids and the pending and overdue totals.
 *
 * `differenceInMonths(addDays(fim, 1), inicio)` is the parameter `duracao`,
 * `None` when processing the dates throws.
 */
module ClienteDashboard {
  import opened Wrappers
  import opened Seqs
  import opened FrontTypes
  import opened FormState

  /** The property fields the query logs for every lease. */
  datatype ImovelAluguel = ImovelAluguel(id: int, nome: string, tipo: string, codigo: string, endereco: string)

  datatype AluguelCliente = AluguelCliente(
    id: int, dataInicio: string, dataFim: string, valorMensal: int, status: string,
    imovel: Option<ImovelAluguel>, duracaoMeses: Option<int>)

  /** `PagamentoAgrupado`: one lease's payment summary. */
  datatype Agrupado = Agrupado(
    contratoId: int, valorTotal: int, totalPagamentos: nat, pagos: nat, valorPago: int,
    pendentes: nat, valorPendente: int, atrasados: nat, valorAtrasado: int, status: string)

  datatype Totais = Totais(quantidade: int, valor: int)

  datatype ClienteDashboardData = ClienteDashboardData(
    total: nat, ativos: seq<AluguelCliente>, pendentes: Totais, atrasados: Totais)

  /**
   * A response: a failed request (an `AxiosError` and the `message` and
   * `error` of its body, if any), or the `data` of an answer, `None` when
   * null or undefined.
   */
  datatype Resposta<T> = FalhaHttp(message: Option<string>, error: Option<string>) | Respondeu(data: Option<seq<T>>)

  const MSG_NAO_AUTENTICADO := "Usuário não autenticado"
  const MSG_DADOS_INVALIDOS := "Dados inválidos retornados pela API"
  const MSG_ERRO_PADRAO := "Erro ao carregar dados do dashboard"

  /**
   * A thrown error, with what the toast shows: a message, or the runtime's
   * own `TypeError` text, which is not part of this model.
   */
  datatype Falha = Mensagem(texto: string) | ErroDeTipo

  /** `error.response?.data?.message || error.response?.data?.error || '...'`. */
  function MensagemHttp(message: Option<string>, error: Option<string>): string
  {
    MensagemOu(message, MensagemOu(error, MSG_ERRO_PADRAO))
  }

  function Ativo(a: AluguelCliente): bool { a.status == ATIVO }

  /**
   * The `map` callback: the lease with the length in months `duracao` gives.
   * A `None` from `duracao` stands for the `catch` branch, which sets 0; the
   * NaN that `differenceInMonths` yields for an invalid date is not represented.
   */
  function ComDuracao(a: AluguelCliente, duracao: (string, string) -> Option<int>): (r: AluguelCliente)
    ensures r.(duracaoMeses := a.duracaoMeses) == a
    ensures duracao(a.dataInicio, a.dataFim).Some? ==> r.duracaoMeses == duracao(a.dataInicio, a.dataFim)
    ensures duracao(a.dataInicio, a.dataFim).None? ==> r.duracaoMeses == Some(0)
  {
    var d := duracao(a.dataInicio, a.dataFim);
    a.(duracaoMeses := Some(if d.Some? then d.value else 0))
  }

  function Ids(alugueis: seq<AluguelCliente>): seq<int>
  {
    Map(alugueis, (a: AluguelCliente) => a.id)
  }

  /** `alugueisIds.includes(pag.contratoId)`. */
  function DoCliente(ids: seq<int>): Agrupado -> bool
  {
    (g: Agrupado) => g.contratoId in ids
  }

  function Pendentes(g: Agrupado): int { g.pendentes }
  function ValorPendente(g: Agrupado): int { g.valorPendente }
  function Atrasados(g: Agrupado): int { g.atrasados }
  function ValorAtrasado(g: Agrupado): int { g.valorAtrasado }

  /** The `reduce` over the client's grouped payments. */
  function Somar(gs: seq<Agrupado>): (r: (Totais, Totais))
    ensures r.0 == Totais(Sum(gs, Pendentes), Sum(gs, ValorPendente))
    ensures r.1 == Totais(Sum(gs, Atrasados), Sum(gs, ValorAtrasado))
  {
    if gs == [] then (Totais(0, 0), Totais(0, 0))
    else
      var resto := Somar(gs[1..]);
      (Totais(gs[0].pendentes + resto.0.quantidade, gs[0].valorPendente + resto.0.valor),
       Totais(gs[0].atrasados + resto.1.quantidade, gs[0].valorAtrasado + resto.1.valor))
  }

  /** The pending and overdue totals over the grouped entries of the client's active leases. */
  function TotaisDoCliente(alugueis: seq<AluguelCliente>, agrupados: seq<Agrupado>): (Totais, Totais)
  {
    Somar(Filter(agrupados, DoCliente(Ids(Filter(alugueis, Ativo)))))
  }

  /** The steps after both requests and the data check. */
  function Montar(alugueis: seq<AluguelCliente>, agrupados: seq<Agrupado>, duracao: (string, string) -> Option<int>): (r: ClienteDashboardData)
    ensures r.ativos == Map(Filter(alugueis, Ativo), (a: AluguelCliente) => ComDuracao(a, duracao))
    ensures r.total == |r.ativos| <= |alugueis|
    ensures forall k :: 0 <= k < |r.ativos| ==> r.ativos[k].status == ATIVO && r.ativos[k].duracaoMeses.Some?
    ensures (r.pendentes, r.atrasados) == TotaisDoCliente(alugueis, agrupados)
  {
    var ativos := Map(Filter(alugueis, Ativo), (a: AluguelCliente) => ComDuracao(a, duracao));
    var ids := Ids(ativos);
    assert ids == Ids(Filter(alugueis, Ativo));
    var totais := Somar(Filter(agrupados, DoCliente(ids)));
    ClienteDashboardData(|ativos|, ativos, totais.0, totais.1)
  }

  /**
   * `queryFn`. The leases are logged one by one before the data check: null
   * lease data, or a lease without a property, throws a `TypeError` there.
   */
  function Consultar(userId: Option<int>, alugueisResp: Resposta<AluguelCliente>, pagamentosResp: Resposta<Agrupado>,
                     duracao: (string, string) -> Option<int>): (r: Result<ClienteDashboardData, Falha>)
    ensures userId.None? || userId == Some(0) ==> r == Err(Mensagem(MSG_NAO_AUTENTICADO))
    ensures userId.Some? && userId != Some(0) && alugueisResp.FalhaHttp? ==>
              r == Err(Mensagem(MensagemHttp(alugueisResp.message, alugueisResp.error)))
    ensures userId.Some? && userId != Some(0) && alugueisResp.Respondeu? && pagamentosResp.FalhaHttp? ==>
              r == Err(Mensagem(MensagemHttp(pagamentosResp.message, pagamentosResp.error)))
    ensures r.Ok? ==> alugueisResp.Respondeu? && alugueisResp.data.Some? && pagamentosResp.Respondeu? && pagamentosResp.data.Some?
                      && r.value == Montar(alugueisResp.data.value, pagamentosResp.data.value, duracao)
  {
    if userId.None? || userId == Some(0) then Err(Mensagem(MSG_NAO_AUTENTICADO))
    else if alugueisResp.FalhaHttp? then Err(Mensagem(MensagemHttp(alugueisResp.message, alugueisResp.error)))
    else if pagamentosResp.FalhaHttp? then Err(Mensagem(MensagemHttp(pagamentosResp.message, pagamentosResp.error)))
    else if alugueisResp.data.None? then Err(ErroDeTipo)
    else if exists k :: 0 <= k < |alugueisResp.data.value| && alugueisResp.data.value[k].imovel.None? then Err(ErroDeTipo)
    else if pagamentosResp.data.None? then Err(Mensagem(MSG_DADOS_INVALIDOS))
    else Ok(Montar(alugueisResp.data.value, pagamentosResp.data.value, duracao))
  }

  /** The outcome of the query: its result and the toasts shown on the way, in order. */
  datatype Consulta = Consulta(resultado: Result<ClienteDashboardData, Falha>, toasts: seq<Falha>)

  /**
   * The query with `retry: 1`: a failed `queryFn` runs once more, against the
   * responses of a second round of requests. Each failed attempt toasts its
   * error before rethrowing it. The hook's `enabled` gate, which keeps the
   * query from running at all without a user id, is outside this function.
   */
  function ConsultarComRetentativa(userId: Option<int>, primeira: (Resposta<AluguelCliente>, Resposta<Agrupado>),
                                   segunda: (Resposta<AluguelCliente>, Resposta<Agrupado>),
                                   duracao: (string, string) -> Option<int>): (r: Consulta)
    ensures var um := Consultar(userId, primeira.0, primeira.1, duracao);
            um.Ok? ==> r == Consulta(um, [])
    ensures var um := Consultar(userId, primeira.0, primeira.1, duracao);
            um.Err? ==> r.resultado == Consultar(userId, segunda.0, segunda.1, duracao) && |r.toasts| >= 1 && r.toasts[0] == um.error
    ensures r.resultado.Ok? <==> Consultar(userId, primeira.0, primeira.1, duracao).Ok?
                                 || Consultar(userId, segunda.0, segunda.1, duracao).Ok?
    ensures r.resultado.Ok? ==> |r.toasts| <= 1
    ensures r.resultado.Err? ==> r.toasts == [Consultar(userId, primeira.0, primeira.1, duracao).error, r.resultado.error]
  {
    var um := Consultar(userId, primeira.0, primeira.1, duracao);
    if um.Ok? then Consulta(um, [])
    else
      var dois := Consultar(userId, segunda.0, segunda.1, duracao);
      Consulta(dois, [um.error] + (if dois.Err? then [dois.error] else []))
  }

  /** A failure that the second attempt meets again is toasted twice and then reaches the page. */
  lemma FalhaPersistenteAvisaDuasVezes(userId: Option<int>, respostas: (Resposta<AluguelCliente>, Resposta<Agrupado>),
                                       duracao: (string, string) -> Option<int>)
    requires Consultar(userId, respostas.0, respostas.1, duracao).Err?
    ensures var e := Consultar(userId, respostas.0, respostas.1, duracao);
            ConsultarComRetentativa(userId, respostas, respostas, duracao) == Consulta(e, [e.error, e.error])
  {
  }

  /** Lease data present and complete, grouped data missing: the data check throws its message. */
  lemma DadosInvalidos(userId: int, alugueis: seq<AluguelCliente>, duracao: (string, string) -> Option<int>)
    requires userId != 0
    requires forall k :: 0 <= k < |alugueis| ==> alugueis[k].imovel.Some?
    ensures Consultar(Some(userId), Respondeu(Some(alugueis)), Respondeu(None), duracao) == Err(Mensagem(MSG_DADOS_INVALIDOS))
  {
  }

  /** Missing lease data fails before the data check, in the logging loop. */
  lemma AlugueisNulosFalhamAntes(userId: int, pagamentosResp: Resposta<Agrupado>, duracao: (string, string) -> Option<int>)
    requires userId != 0 && pagamentosResp.Respondeu?
    ensures Consultar(Some(userId), Respondeu(None), pagamentosResp, duracao) == Err(ErroDeTipo)
  {
  }

  /** A grouped entry of a lease that is not active, or not the client's, changes no total. */
  lemma {:induction false} AgrupadoAlheioNaoConta(alugueis: seq<AluguelCliente>, agrupados: seq<Agrupado>, g: Agrupado,
                                                 duracao: (string, string) -> Option<int>)
    requires g.contratoId !in Ids(Filter(alugueis, Ativo))
    ensures Montar(alugueis, agrupados + [g], duracao) == Montar(alugueis, agrupados, duracao)
  {
    var p := DoCliente(Ids(Filter(alugueis, Ativo)));
    FilterConcat(agrupados, [g], p);
    assert Filter([g], p) == [];
    assert Filter(agrupados + [g], p) == Filter(agrupados, p);
  }

  /** A grouped entry of an active lease adds its pending and overdue counts and values. */
  lemma AgrupadoDoClienteSoma(alugueis: seq<AluguelCliente>, agrupados: seq<Agrupado>, g: Agrupado)
    requires g.contratoId in Ids(Filter(alugueis, Ativo))
    ensures TotaisDoCliente(alugueis, agrupados + [g]).0
            == Totais(TotaisDoCliente(alugueis, agrupados).0.quantidade + g.pendentes,
                      TotaisDoCliente(alugueis, agrupados).0.valor + g.valorPendente)
    ensures TotaisDoCliente(alugueis, agrupados + [g]).1
            == Totais(TotaisDoCliente(alugueis, agrupados).1.quantidade + g.atrasados,
                      TotaisDoCliente(alugueis, agrupados).1.valor + g.valorAtrasado)
  {
    var p := DoCliente(Ids(Filter(alugueis, Ativo)));
    FiltroPasso(agrupados, g, p);
    SomarPasso(Filter(agrupados, p), g);
  }

  /** An entry the filter keeps lands at the end of the filtered list. */
  lemma FiltroPasso(agrupados: seq<Agrupado>, g: Agrupado, p: Agrupado -> bool)
    requires p(g)
    ensures Filter(agrupados + [g], p) == Filter(agrupados, p) + [g]
  {
    FilterConcat(agrupados, [g], p);
    assert Filter([g], p) == [g];
  }

  /** One more grouped entry at the end of the list adds its counts and values to both totals. */
  lemma SomarPasso(f: seq<Agrupado>, g: Agrupado)
    ensures Somar(f + [g]).0 == Totais(Somar(f).0.quantidade + g.pendentes, Somar(f).0.valor + g.valorPendente)
    ensures Somar(f + [g]).1 == Totais(Somar(f).1.quantidade + g.atrasados, Somar(f).1.valor + g.valorAtrasado)
  {
    SumConcat(f, [g], Pendentes);
    SumConcat(f, [g], ValorPendente);
    SumConcat(f, [g], Atrasados);
    SumConcat(f, [g], ValorAtrasado);
  }

  /** Where `duracao` is `None`, the `catch` branch, the lease is listed with `duracaoMeses` 0. */
  lemma DuracaoPadrao(a: AluguelCliente, duracao: (string, string) -> Option<int>)
    requires duracao(a.dataInicio, a.dataFim).None?
    ensures ComDuracao(a, duracao).duracaoMeses == Some(0)
  {
  }
}
