/**
 * The admin dashboard query (hooks/use-dashboard-data.ts): property and
 * payment totals, and the five most recent payments.
 *
 * `new Date(dataPagamento).getTime()` is the parameter `getTime`; a date
 * JavaScript cannot parse (NaN) is not represented. `toFixed(2)` and
 * `toLocaleDateString()` are left to the display: an activity keeps the
 * amount and the date it was made from.
 */
module DashboardData {
  import opened Wrappers
  import opened Seqs
  import opened FrontTypes
  import opened Sorting

  /** A payment as this query reads it: `pag.aluguel.imovel` may be absent. */
  datatype PagamentoDash = PagamentoDash(valor: int, dataPagamento: string, status: string, imovel: Option<ParteImovel>)

  datatype Totais = Totais(quantidade: nat, valor: int)

  datatype Atividade = Atividade(tipo: string, valor: int, data: string, imovel: ParteImovel)

  datatype Dashboard = Dashboard(
    total: nat, ativos: nat, pendentes: Totais, atrasados: Totais, recebidos: Totais, atividadesRecentes: seq<Atividade>)

  const RECEBIDO := "Pagamento Recebido"
  const PENDENTE_TIPO := "Pagamento Pendente"

  function ComStatus(status: string): PagamentoDash -> bool
  {
    (p: PagamentoDash) => p.status == status
  }

  function ValorDe(p: PagamentoDash): int { p.valor }

  /** The count and the sum of `valor` over the payments with one status. */
  function TotaisDe(pagamentos: seq<PagamentoDash>, status: string): (r: Totais)
    ensures r.quantidade == |Filter(pagamentos, ComStatus(status))| && r.quantidade <= |pagamentos|
    ensures r.valor == Sum(Filter(pagamentos, ComStatus(status)), ValorDe)
  {
    var f := Filter(pagamentos, ComStatus(status));
    Totais(|f|, Sum(f, ValorDe))
  }

  /** Totals over two lists of payments add up. */
  lemma TotaisConcat(a: seq<PagamentoDash>, b: seq<PagamentoDash>, status: string)
    ensures TotaisDe(a + b, status).quantidade == TotaisDe(a, status).quantidade + TotaisDe(b, status).quantidade
    ensures TotaisDe(a + b, status).valor == TotaisDe(a, status).valor + TotaisDe(b, status).valor
  {
    FilterConcat(a, b, ComStatus(status));
    SumConcat(Filter(a, ComStatus(status)), Filter(b, ComStatus(status)), ValorDe);
  }

  /** The three statuses never count one payment twice. */
  lemma TotaisDisjuntos(pagamentos: seq<PagamentoDash>)
    ensures TotaisDe(pagamentos, PENDENTE).quantidade + TotaisDe(pagamentos, ATRASADO).quantidade
            + TotaisDe(pagamentos, PAGO).quantidade <= |pagamentos|
  {
    CountThree(pagamentos, ComStatus(PENDENTE), ComStatus(ATRASADO), ComStatus(PAGO));
  }

  /** The tipo of an activity: "Pagamento Recebido" exactly for a PAGO payment. */
  function TipoDe(p: PagamentoDash): (r: string)
    ensures r == RECEBIDO <==> p.status == PAGO
    ensures r == RECEBIDO || r == PENDENTE_TIPO
  {
    if p.status == PAGO then RECEBIDO else PENDENTE_TIPO
  }

  /** The `map` callback; `None` when reading `pag.aluguel.imovel.nome` throws. */
  function AtividadeDe(p: PagamentoDash): (r: Option<Atividade>)
    ensures r.Some? <==> p.imovel.Some?
    ensures r.Some? ==> r.value.tipo == TipoDe(p) && r.value.valor == p.valor && r.value.data == p.dataPagamento
                        && r.value.imovel == p.imovel.value
  {
    if p.imovel.None? then None else Some(Atividade(TipoDe(p), p.valor, p.dataPagamento, p.imovel.value))
  }

  /** `.map(...)` over the first payments: every one yields its activity, or the call throws. */
  function Atividades(ps: seq<PagamentoDash>): (r: Option<seq<Atividade>>)
    ensures r.None? <==> exists k :: 0 <= k < |ps| && ps[k].imovel.None?
    ensures r.Some? ==> |r.value| == |ps| && forall k :: 0 <= k < |ps| ==> Some(r.value[k]) == AtividadeDe(ps[k])
  {
    if ps == [] then Some([])
    else
      var a := AtividadeDe(ps[0]);
      var resto := Atividades(ps[1..]);
      assert forall k :: 1 <= k < |ps| ==> ps[k] == ps[1..][k - 1];
      if a.None? || resto.None? then None else Some([a.value] + resto.value)
  }

  /** The comparator `new Date(b) - new Date(a)` orders by descending time. */
  function MaisRecentePrimeiro(getTime: string -> int): PagamentoDash -> int
  {
    (p: PagamentoDash) => -getTime(p.dataPagamento)
  }

  function ImovelComStatus(status: string): ImovelView -> bool
  {
    (i: ImovelView) => i.status == status
  }

  /**
   * `queryFn` once both requests have answered: the totals are taken first,
   * then `pagamentos.sort(...)` reorders the fetched array itself. `None` when
   * one of the five most recent payments has no property.
   */
  method Carregar(imoveis: seq<ImovelView>, pagamentos: array<PagamentoDash>, getTime: string -> int) returns (r: Option<Dashboard>)
    modifies pagamentos
    ensures multiset(pagamentos[..]) == multiset(old(pagamentos[..]))
    ensures OrdenadoPor(pagamentos[..], MaisRecentePrimeiro(getTime))
    ensures r.None? <==> Atividades(Slice(pagamentos[..], 0, 5)).None?
    ensures r.Some? ==>
              r.value.total == |imoveis| && r.value.ativos == Count(imoveis, ImovelComStatus(DISPONIVEL))
              && r.value.pendentes == TotaisDe(old(pagamentos[..]), PENDENTE)
              && r.value.atrasados == TotaisDe(old(pagamentos[..]), ATRASADO)
              && r.value.recebidos == TotaisDe(old(pagamentos[..]), PAGO)
              && r.value.atividadesRecentes == Atividades(Slice(pagamentos[..], 0, 5)).value
  {
    var lista := pagamentos[..];
    var pendentes := TotaisDe(lista, PENDENTE);
    var atrasados := TotaisDe(lista, ATRASADO);
    var recebidos := TotaisDe(lista, PAGO);
    OrdenarPor(pagamentos, MaisRecentePrimeiro(getTime));
    var recentes := Atividades(Slice(pagamentos[..], 0, 5));
    if recentes.None? {
      r := None;
    } else {
      r := Some(Dashboard(|imoveis|, Count(imoveis, ImovelComStatus(DISPONIVEL)), pendentes, atrasados, recebidos, recentes.value));
    }
  }

  /**
   * The activities are at most five, and none of the payments left out is more
   * recent than one shown.
   */
  lemma RecentesSaoOsMaisNovos(pagamentos: seq<PagamentoDash>, getTime: string -> int)
    requires OrdenadoPor(pagamentos, MaisRecentePrimeiro(getTime))
    ensures |Slice(pagamentos, 0, 5)| <= 5
    ensures forall x, y :: x in Slice(pagamentos, 0, 5) && y in pagamentos[|Slice(pagamentos, 0, 5)|..] ==>
              getTime(x.dataPagamento) >= getTime(y.dataPagamento)
  {
    var k := if |pagamentos| < 5 then |pagamentos| else 5;
    SliceNonNegative(pagamentos, 0, 5);
    assert Slice(pagamentos, 0, 5) == pagamentos[..k];
    PrefixoTemMenoresChaves(pagamentos, MaisRecentePrimeiro(getTime), k);
  }

  /** The totals do not depend on the order: the sort does not change them. */
  lemma TotaisNaoDependemDaOrdem(a: seq<PagamentoDash>, b: seq<PagamentoDash>, status: string)
    requires multiset(a) == multiset(b)
    ensures TotaisDe(a, status) == TotaisDe(b, status)
  {
    FilterSumPermutation(a, b, ComStatus(status), ValorDe);
  }

  /** Taking one payment out of a list takes its share out of the totals. */
  lemma TotaisSemUm(b: seq<PagamentoDash>, k: nat, status: string)
    requires k < |b|
    ensures TotaisDe(b, status).quantidade == TotaisDe([b[k]], status).quantidade + TotaisDe(b[..k] + b[k + 1..], status).quantidade
    ensures TotaisDe(b, status).valor == TotaisDe([b[k]], status).valor + TotaisDe(b[..k] + b[k + 1..], status).valor
  {
    assert b == b[..k] + ([b[k]] + b[k + 1..]);
    TotaisConcat(b[..k], [b[k]] + b[k + 1..], status);
    TotaisConcat([b[k]], b[k + 1..], status);
    TotaisConcat(b[..k], b[k + 1..], status);
  }
}
