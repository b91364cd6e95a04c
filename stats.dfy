/**
 * `calculateClienteStats` and `calculateImovelStats` (utils/stats.ts): the
 * counters shown above the client and property tables.
 */
module Stats {
  import opened FrontTypes
  import opened Seqs

  datatype ClienteStats = ClienteStats(total: nat, ativos: nat, inativos: nat, bloqueados: nat)

  datatype ImovelStats = ImovelStats(total: nat, alugados: nat, disponiveis: nat, valorTotal: int)

  function ComStatus(s: string): ClienteView -> bool
  {
    (c: ClienteView) => c.status == s
  }

  function ImovelComStatus(s: string): ImovelView -> bool
  {
    (i: ImovelView) => i.status == s
  }

  /**
   * `valorMensal || 0`: a zero value counts as zero. (A missing or NaN value,
   * which has no `int` counterpart, is not represented.)
   */
  function Valor(i: ImovelView): int
  {
    if i.valorMensal == 0 then 0 else i.valorMensal
  }

  function CalculateClienteStats(clientes: seq<ClienteView>): (r: ClienteStats)
    ensures r.total == |clientes|
    ensures r.ativos + r.inativos + r.bloqueados <= r.total
    ensures (forall i :: 0 <= i < |clientes| ==> clientes[i].status in {ATIVO, INATIVO, BLOQUEADO})
            ==> r.ativos + r.inativos + r.bloqueados == r.total
  {
    CountThree(clientes, ComStatus(ATIVO), ComStatus(INATIVO), ComStatus(BLOQUEADO));
    ClienteStats(|clientes|, Count(clientes, ComStatus(ATIVO)),
                 Count(clientes, ComStatus(INATIVO)), Count(clientes, ComStatus(BLOQUEADO)))
  }

  function CalculateImovelStats(imoveis: seq<ImovelView>): (r: ImovelStats)
    ensures r.total == |imoveis|
    ensures r.alugados + r.disponiveis <= r.total
  {
    CountTwo(imoveis, ImovelComStatus(ALUGADO), ImovelComStatus(DISPONIVEL));
    ImovelStats(|imoveis|, Count(imoveis, ImovelComStatus(ALUGADO)),
                Count(imoveis, ImovelComStatus(DISPONIVEL)), Sum(imoveis, Valor))
  }

  /** An empty list gives all-zero counters. */
  lemma ClienteStatsVazio()
    ensures CalculateClienteStats([]) == ClienteStats(0, 0, 0, 0)
  {
  }

  lemma ImovelStatsVazio()
    ensures CalculateImovelStats([]) == ImovelStats(0, 0, 0, 0)
  {
  }

  /** One client counts toward `total` and toward the counter of its own status, if any. */
  lemma ClienteStatsUm(c: ClienteView)
    ensures CalculateClienteStats([c]) ==
      ClienteStats(1, if c.status == ATIVO then 1 else 0, if c.status == INATIVO then 1 else 0,
                   if c.status == BLOQUEADO then 1 else 0)
  {
    assert [c][1..] == [];
  }

  lemma ImovelStatsUm(i: ImovelView)
    ensures CalculateImovelStats([i]) ==
      ImovelStats(1, if i.status == ALUGADO then 1 else 0, if i.status == DISPONIVEL then 1 else 0, i.valorMensal)
  {
    assert [i][1..] == [];
    assert Sum([i], Valor) == Valor(i) + Sum([], Valor);
  }

  /** With no negative rent, the total rent is not negative. */
  lemma ValorTotalNaoNegativo(imoveis: seq<ImovelView>)
    requires forall i :: 0 <= i < |imoveis| ==> imoveis[i].valorMensal >= 0
    ensures CalculateImovelStats(imoveis).valorTotal >= 0
  {
    SumNonNegative(imoveis, Valor);
  }

  /**
   * The counters of two lists joined are the sums of their counters: together
   * with the two lemmas above, this determines the counters of every list.
   */
  lemma ClienteStatsConcat(a: seq<ClienteView>, b: seq<ClienteView>)
    ensures var x, y, z := CalculateClienteStats(a), CalculateClienteStats(b), CalculateClienteStats(a + b);
            z == ClienteStats(x.total + y.total, x.ativos + y.ativos, x.inativos + y.inativos, x.bloqueados + y.bloqueados)
  {
    CountConcat(a, b, ComStatus(ATIVO));
    CountConcat(a, b, ComStatus(INATIVO));
    CountConcat(a, b, ComStatus(BLOQUEADO));
  }

  lemma ImovelStatsConcat(a: seq<ImovelView>, b: seq<ImovelView>)
    ensures var x, y, z := CalculateImovelStats(a), CalculateImovelStats(b), CalculateImovelStats(a + b);
            z == ImovelStats(x.total + y.total, x.alugados + y.alugados, x.disponiveis + y.disponiveis, x.valorTotal + y.valorTotal)
  {
    CountConcat(a, b, ImovelComStatus(ALUGADO));
    CountConcat(a, b, ImovelComStatus(DISPONIVEL));
    SumConcat(a, b, Valor);
  }
}
