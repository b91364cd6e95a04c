/**
 * `PagamentoController`: the per-contract summary of `listarAgrupados` and
 * the null guard of `alterarFormaPagamento`.
 *
 * The summary functions below recurse from the end of the list, the order in
 * which the controller's loop consumes it.
 */
module PagamentoController {
  import opened Wrappers
  import opened Entities

  /** One entry of the `listarAgrupados` response. */
  datatype Grupo = Grupo(
    contratoId: int, valorTotal: int, totalPagamentos: nat,
    pagos: nat, valorPago: int, pendentes: nat, valorPendente: int, atrasados: nat, valorAtrasado: int)

  /** The group `computeIfAbsent` creates: every counter at zero. */
  function GrupoVazio(contratoId: int): Grupo
  {
    Grupo(contratoId, 0, 0, 0, 0, 0, 0, 0, 0)
  }

  /** The loop body's update of a group by one payment. */
  function Acumular(g: Grupo, p: Pagamento): (h: Grupo)
    ensures h.contratoId == g.contratoId
    ensures h.totalPagamentos == g.totalPagamentos + 1 && h.valorTotal == g.valorTotal + p.valor
    ensures h.pagos + h.pendentes + h.atrasados <= g.pagos + g.pendentes + g.atrasados + 1
  {
    var g := g.(valorTotal := g.valorTotal + p.valor, totalPagamentos := g.totalPagamentos + 1);
    if p.status == PAGO then g.(pagos := g.pagos + 1, valorPago := g.valorPago + p.valor)
    else if p.status == PENDENTE then g.(pendentes := g.pendentes + 1, valorPendente := g.valorPendente + p.valor)
    else if p.status == ATRASADO then g.(atrasados := g.atrasados + 1, valorAtrasado := g.valorAtrasado + p.valor)
    else g
  }

  /** The contract ids the list mentions; payments without a lease are skipped. */
  function Contratos(ps: seq<Pagamento>): (r: set<int>)
    ensures forall id :: id in r <==> exists i :: 0 <= i < |ps| && ps[i].aluguelId == Some(id)
  {
    if ps == [] then {}
    else
      var ultimo := ps[|ps| - 1];
      assert forall i :: 0 <= i < |ps| - 1 ==> ps[..|ps| - 1][i] == ps[i];
      Contratos(ps[..|ps| - 1]) + (if ultimo.aluguelId.Some? then {ultimo.aluguelId.value} else {})
  }

  /** How many payments of contract `id` the list holds; with `status` Some, only those of that status. */
  function Quantos(ps: seq<Pagamento>, id: int, status: Option<string>): nat
  {
    if ps == [] then 0
    else
      var p := ps[|ps| - 1];
      Quantos(ps[..|ps| - 1], id, status)
        + (if p.aluguelId == Some(id) && (status.None? || p.status == status.value) then 1 else 0)
  }

  /** The sum of `valor` over the same payments `Quantos` counts. */
  function Soma(ps: seq<Pagamento>, id: int, status: Option<string>): int
  {
    if ps == [] then 0
    else
      var p := ps[|ps| - 1];
      Soma(ps[..|ps| - 1], id, status)
        + (if p.aluguelId == Some(id) && (status.None? || p.status == status.value) then p.valor else 0)
  }

  /** The group of contract `id` over the whole list, field by field. */
  function GrupoDe(ps: seq<Pagamento>, id: int): Grupo
  {
    Grupo(id, Soma(ps, id, None), Quantos(ps, id, None),
          Quantos(ps, id, Some(PAGO)), Soma(ps, id, Some(PAGO)),
          Quantos(ps, id, Some(PENDENTE)), Soma(ps, id, Some(PENDENTE)),
          Quantos(ps, id, Some(ATRASADO)), Soma(ps, id, Some(ATRASADO)))
  }

  /** The response as a map from contract id to group; its order is `HashMap.values()`'s and not modelled. */
  function Agrupar(ps: seq<Pagamento>): (r: map<int, Grupo>)
    ensures r.Keys == Contratos(ps)
    ensures forall id :: id in r ==> r[id] == GrupoDe(ps, id)
  {
    map id | id in Contratos(ps) :: GrupoDe(ps, id)
  }

  /** A contract the list does not mention has an all-zero group. */
  lemma {:induction false} GrupoDeAusente(ps: seq<Pagamento>, id: int)
    requires id !in Contratos(ps)
    ensures GrupoDe(ps, id) == GrupoVazio(id)
  {
    if ps != [] {
      GrupoDeAusente(ps[..|ps| - 1], id);
    }
  }

  /** Adding one payment at the end updates its contract's group as the loop body does. */
  lemma GrupoDePasso(ps: seq<Pagamento>, p: Pagamento, id: int)
    ensures GrupoDe(ps + [p], id) == if p.aluguelId == Some(id) then Acumular(GrupoDe(ps, id), p) else GrupoDe(ps, id)
  {
    assert (ps + [p])[..|ps|] == ps;
  }

  /** The contracts of a list with one more payment. */
  lemma ContratosPasso(ps: seq<Pagamento>, p: Pagamento)
    ensures Contratos(ps + [p]) == Contratos(ps) + (if p.aluguelId.Some? then {p.aluguelId.value} else {})
  {
    assert (ps + [p])[..|ps|] == ps;
  }

  /** A payment without a lease leaves the summary as it was. */
  lemma AgruparPassoSemContrato(ps: seq<Pagamento>, p: Pagamento)
    requires p.aluguelId.None?
    ensures Agrupar(ps + [p]) == Agrupar(ps)
  {
    ContratosPasso(ps, p);
    var a, b := Agrupar(ps + [p]), Agrupar(ps);
    forall k | k in a
      ensures a[k] == b[k]
    {
      GrupoDePasso(ps, p, k);
    }
  }

  /** A payment of contract `id` updates that contract's group, created empty if absent, and no other. */
  lemma AgruparPassoComContrato(ps: seq<Pagamento>, p: Pagamento, id: int)
    requires p.aluguelId == Some(id)
    ensures Agrupar(ps + [p]) == Agrupar(ps)[id := Acumular(if id in Agrupar(ps) then Agrupar(ps)[id] else GrupoVazio(id), p)]
  {
    ContratosPasso(ps, p);
    var a, b := Agrupar(ps + [p]), Agrupar(ps);
    var antes := if id in b then b[id] else GrupoVazio(id);
    if id !in b {
      GrupoDeAusente(ps, id);
    }
    assert antes == GrupoDe(ps, id);
    GrupoDePasso(ps, p, id);
    var c := b[id := Acumular(antes, p)];
    assert a.Keys == c.Keys;
    forall k | k in a
      ensures a[k] == c[k]
    {
      GrupoDePasso(ps, p, k);
    }
  }

  /** One step of the loop: the summary of a list with one more payment. */
  lemma AgruparPasso(ps: seq<Pagamento>, p: Pagamento)
    ensures p.aluguelId.None? ==> Agrupar(ps + [p]) == Agrupar(ps)
    ensures p.aluguelId.Some? ==>
              Agrupar(ps + [p]) == Agrupar(ps)[p.aluguelId.value :=
                Acumular(if p.aluguelId.value in Agrupar(ps) then Agrupar(ps)[p.aluguelId.value] else GrupoVazio(p.aluguelId.value), p)]
  {
    if p.aluguelId.Some? {
      AgruparPassoComContrato(ps, p, p.aluguelId.value);
    } else {
      AgruparPassoSemContrato(ps, p);
    }
  }

  /** `listarAgrupados`: the loop over all payments that fills the `HashMap`. */
  method ListarAgrupados(pagamentos: seq<Pagamento>) returns (agrupados: map<int, Grupo>)
    ensures agrupados == Agrupar(pagamentos)
  {
    agrupados := map[];
    var i := 0;
    while i < |pagamentos|
      invariant 0 <= i <= |pagamentos|
      invariant agrupados == Agrupar(pagamentos[..i])
    {
      var pagamento := pagamentos[i];
      assert pagamentos[..i + 1] == pagamentos[..i] + [pagamento];
      AgruparPasso(pagamentos[..i], pagamento);
      if pagamento.aluguelId.Some? {
        var aluguelId := pagamento.aluguelId.value;
        var grupo := if aluguelId in agrupados then agrupados[aluguelId] else GrupoVazio(aluguelId);
        agrupados := agrupados[aluguelId := Acumular(grupo, pagamento)];
      }
      i := i + 1;
    }
    assert pagamentos[..i] == pagamentos;
  }

  /** Every group counts at least one payment. */
  lemma {:induction false} GrupoNaoVazio(ps: seq<Pagamento>, id: int)
    requires id in Contratos(ps)
    ensures GrupoDe(ps, id).totalPagamentos >= 1
  {
    if ps[|ps| - 1].aluguelId != Some(id) {
      GrupoNaoVazio(ps[..|ps| - 1], id);
    }
  }

  /** Only PAGO, PENDENTE and ATRASADO are counted apart, so their counts never exceed the total. */
  lemma {:induction false} ContagensAteOTotal(ps: seq<Pagamento>, id: int)
    ensures Quantos(ps, id, Some(PAGO)) + Quantos(ps, id, Some(PENDENTE)) + Quantos(ps, id, Some(ATRASADO))
            <= Quantos(ps, id, None)
    ensures (forall i :: 0 <= i < |ps| ==> ps[i].status in {PAGO, PENDENTE, ATRASADO})
            ==> Quantos(ps, id, Some(PAGO)) + Quantos(ps, id, Some(PENDENTE)) + Quantos(ps, id, Some(ATRASADO))
                == Quantos(ps, id, None)
  {
    if ps != [] {
      ContagensAteOTotal(ps[..|ps| - 1], id);
      assert forall i :: 0 <= i < |ps| - 1 ==> ps[..|ps| - 1][i] == ps[i];
    }
  }

  /** With non-negative values, the three partial sums never exceed `valorTotal`. */
  lemma {:induction false} SomasAteOTotal(ps: seq<Pagamento>, id: int)
    requires forall i :: 0 <= i < |ps| ==> ps[i].valor >= 0
    ensures Soma(ps, id, Some(PAGO)) + Soma(ps, id, Some(PENDENTE)) + Soma(ps, id, Some(ATRASADO))
            <= Soma(ps, id, None)
  {
    if ps != [] {
      assert forall i :: 0 <= i < |ps| - 1 ==> ps[..|ps| - 1][i] == ps[i];
      SomasAteOTotal(ps[..|ps| - 1], id);
    }
  }

  /** The counters of a group as the response reports them. */
  lemma GrupoConsistente(ps: seq<Pagamento>, id: int)
    requires id in Agrupar(ps)
    requires forall i :: 0 <= i < |ps| ==> ps[i].valor >= 0
    ensures Agrupar(ps)[id].contratoId == id && Agrupar(ps)[id].totalPagamentos >= 1
    ensures Agrupar(ps)[id].pagos + Agrupar(ps)[id].pendentes + Agrupar(ps)[id].atrasados <= Agrupar(ps)[id].totalPagamentos
    ensures Agrupar(ps)[id].valorPago + Agrupar(ps)[id].valorPendente + Agrupar(ps)[id].valorAtrasado <= Agrupar(ps)[id].valorTotal
  {
    GrupoNaoVazio(ps, id);
    ContagensAteOTotal(ps, id);
    SomasAteOTotal(ps, id);
  }

  /** What `alterarFormaPagamento` does with its body: 400, or the service call with the new method. */
  datatype Decisao = BadRequest | AlterarPara(formaPagamento: string)

  /** `body.get("formaPagamento")` is null both for a missing key and for a JSON null. */
  function AlterarFormaPagamento(body: map<string, Option<string>>): (d: Decisao)
    ensures d.BadRequest? <==> "formaPagamento" !in body || body["formaPagamento"].None?
    ensures d.AlterarPara? ==> Some(d.formaPagamento) == body["formaPagamento"]
  {
    if "formaPagamento" !in body || body["formaPagamento"].None? then BadRequest
    else AlterarPara(body["formaPagamento"].value)
  }
}
