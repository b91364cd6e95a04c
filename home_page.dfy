/**
 * The public home page (app/page.tsx): the fetch that fills the list and the
 * effect that filters a copy of it and sorts that copy in place.
 *
 * `Number(precoMin)` and `Number(precoMax)` are a parameter, `toNumber`, which
 * gives `None` for a string JavaScript converts to NaN; every comparison with
 * NaN is false.
 */
module HomePage {
  import opened Wrappers
  import opened Seqs
  import opened ListPage
  import opened Sorting

  /** The `Imovel` of types/index.ts. */
  datatype ImovelHome = ImovelHome(
    id: int, codigo: string, nome: string, endereco: string, descricao: string,
    valorMensal: int, tipo: string, fotos: seq<string>, status: string, proprietarioId: int)

  const MSG_ERRO := "Erro ao carregar imóveis"

  /** The search filter, applied when `searchTerm` is non-empty. */
  predicate BuscaOk(i: ImovelHome, searchTerm: string)
  {
    searchTerm == "" || Inclui(i.nome, searchTerm) || Inclui(i.endereco, searchTerm) || Inclui(i.descricao, searchTerm)
  }

  predicate TipoOk(i: ImovelHome, tipoImovel: string)
  {
    tipoImovel == "" || i.tipo == tipoImovel
  }

  /** `valorMensal >= Number(precoMin)`, applied when `precoMin` is non-empty. */
  predicate MinOk(i: ImovelHome, precoMin: string, toNumber: string -> Option<int>)
  {
    precoMin == "" || (toNumber(precoMin).Some? && i.valorMensal >= toNumber(precoMin).value)
  }

  predicate MaxOk(i: ImovelHome, precoMax: string, toNumber: string -> Option<int>)
  {
    precoMax == "" || (toNumber(precoMax).Some? && i.valorMensal <= toNumber(precoMax).value)
  }

  /** The four filters, each applied only when its input is non-empty, in the order the effect applies them. */
  function Filtrados(lista: seq<ImovelHome>, searchTerm: string, tipoImovel: string, precoMin: string, precoMax: string,
                     toNumber: string -> Option<int>): (r: seq<ImovelHome>)
    ensures IsSubsequence(r, lista)
    ensures forall i :: i in r <==>
              i in lista && BuscaOk(i, searchTerm) && TipoOk(i, tipoImovel) && MinOk(i, precoMin, toNumber) && MaxOk(i, precoMax, toNumber)
  {
    var f1 := if searchTerm != "" then Filter(lista, (i: ImovelHome) => BuscaOk(i, searchTerm)) else lista;
    var f2 := if tipoImovel != "" then Filter(f1, (i: ImovelHome) => TipoOk(i, tipoImovel)) else f1;
    var f3 := if precoMin != "" then Filter(f2, (i: ImovelHome) => MinOk(i, precoMin, toNumber)) else f2;
    var f4 := if precoMax != "" then Filter(f3, (i: ImovelHome) => MaxOk(i, precoMax, toNumber)) else f3;
    Passo(lista, (i: ImovelHome) => BuscaOk(i, searchTerm), searchTerm != "", f1);
    Passo(f1, (i: ImovelHome) => TipoOk(i, tipoImovel), tipoImovel != "", f2);
    Passo(f2, (i: ImovelHome) => MinOk(i, precoMin, toNumber), precoMin != "", f3);
    Passo(f3, (i: ImovelHome) => MaxOk(i, precoMax, toNumber), precoMax != "", f4);
    SubsequenciaTransitiva(f4, f3, f2);
    SubsequenciaTransitiva(f4, f2, f1);
    SubsequenciaTransitiva(f4, f1, lista);
    f4
  }

  /** One step of the pipeline: a filter that is applied, or skipped because its predicate holds everywhere. */
  lemma Passo(xs: seq<ImovelHome>, p: ImovelHome -> bool, aplicado: bool, r: seq<ImovelHome>)
    requires r == if aplicado then Filter(xs, p) else xs
    requires !aplicado ==> forall i :: i in xs ==> p(i)
    ensures IsSubsequence(r, xs)
    ensures forall i :: i in r <==> i in xs && p(i)
  {
    if aplicado {
      FilterIsSubsequence(xs, p);
      FilterMembership(xs, p);
    } else {
      SubsequenciaDeSi(xs);
    }
  }

  lemma {:induction false} SubsequenciaDeSi<T>(xs: seq<T>)
    ensures IsSubsequence(xs, xs)
  {
    if xs != [] {
      SubsequenciaDeSi(xs[1..]);
    }
  }

  lemma {:induction false} SubsequenciaTransitiva<T>(a: seq<T>, b: seq<T>, c: seq<T>)
    requires IsSubsequence(a, b) && IsSubsequence(b, c)
    ensures IsSubsequence(a, c)
    decreases |c|
  {
    if a != [] && c != [] {
      if b[0] == c[0] && IsSubsequence(b[1..], c[1..]) {
        if a[0] == b[0] && IsSubsequence(a[1..], b[1..]) {
          SubsequenciaTransitiva(a[1..], b[1..], c[1..]);
        } else {
          SubsequenciaTransitiva(a, b[1..], c[1..]);
        }
      } else {
        SubsequenciaTransitiva(a, b, c[1..]);
      }
    }
  }

  /**
   * The sort key of each `ordenacao`: ascending rent for 'price_asc',
   * descending rent for 'price_desc', and descending id for 'recent' and any
   * other value. Each comparator `(a, b) => k(a) - k(b)` orders by its key.
   */
  function Chave(ordenacao: string): ImovelHome -> int
  {
    if ordenacao == "price_asc" then (i: ImovelHome) => i.valorMensal
    else if ordenacao == "price_desc" then (i: ImovelHome) => -i.valorMensal
    else (i: ImovelHome) => -i.id
  }

  /**
   * The filter-and-sort effect: a fresh array holds a copy of the filtered
   * list, so the fetched list is never reordered.
   */
  method FiltrarEOrdenar(imoveisList: seq<ImovelHome>, searchTerm: string, tipoImovel: string, precoMin: string,
                         precoMax: string, ordenacao: string, toNumber: string -> Option<int>) returns (r: seq<ImovelHome>)
    ensures multiset(r) == multiset(Filtrados(imoveisList, searchTerm, tipoImovel, precoMin, precoMax, toNumber))
    ensures OrdenadoPor(r, Chave(ordenacao))
  {
    var f := Filtrados(imoveisList, searchTerm, tipoImovel, precoMin, precoMax, toNumber);
    var filtered := new ImovelHome[|f|](k requires 0 <= k < |f| => f[k]);
    assert filtered[..] == f;
    OrdenarPor(filtered, Chave(ordenacao));
    r := filtered[..];
  }

  /** What the result holds: exactly the listed properties that pass every filter. */
  lemma ResultadoFiltrado(lista: seq<ImovelHome>, r: seq<ImovelHome>, searchTerm: string, tipoImovel: string,
                          precoMin: string, precoMax: string, toNumber: string -> Option<int>)
    requires multiset(r) == multiset(Filtrados(lista, searchTerm, tipoImovel, precoMin, precoMax, toNumber))
    ensures forall i :: i in r <==>
              i in lista && BuscaOk(i, searchTerm) && TipoOk(i, tipoImovel) && MinOk(i, precoMin, toNumber) && MaxOk(i, precoMax, toNumber)
  {
    var f := Filtrados(lista, searchTerm, tipoImovel, precoMin, precoMax, toNumber);
    forall i ensures i in r <==> i in f {
      assert i in r <==> i in multiset(r);
      assert i in f <==> i in multiset(f);
    }
  }

  /** A price bound that converts to NaN leaves nothing. */
  lemma PrecoInvalidoEsvazia(lista: seq<ImovelHome>, searchTerm: string, tipoImovel: string, precoMin: string,
                              precoMax: string, toNumber: string -> Option<int>)
    requires precoMin != "" && toNumber(precoMin).None?
    ensures Filtrados(lista, searchTerm, tipoImovel, precoMin, precoMax, toNumber) == []
  {
  }

  /** The bounds are inclusive: rent equal to either bound passes. */
  lemma LimitesInclusivos(i: ImovelHome, toNumber: string -> Option<int>, precoMin: string, precoMax: string)
    requires toNumber(precoMin) == Some(i.valorMensal) && toNumber(precoMax) == Some(i.valorMensal)
    ensures MinOk(i, precoMin, toNumber) && MaxOk(i, precoMax, toNumber)
  {
  }

  /** The page's list state. */
  class HomeState {
    var imoveisList: seq<ImovelHome>
    var loading: bool
    var error: Option<string>
    var filteredImoveis: seq<ImovelHome>

    constructor ()
      ensures imoveisList == [] && loading && error == None && filteredImoveis == []
    {
      imoveisList := [];
      loading := true;
      error := None;
      filteredImoveis := [];
    }

    /** `fetchImoveis`, with what `imoveis.listar()` returned, or `None` when it threw. */
    method FetchImoveis(data: Option<seq<ImovelHome>>)
      modifies this
      ensures !loading
      ensures data.Some? ==> imoveisList == data.value && filteredImoveis == data.value && error == old(error)
      ensures data.None? ==> error == Some(MSG_ERRO) && imoveisList == old(imoveisList) && filteredImoveis == old(filteredImoveis)
    {
      if data.Some? {
        imoveisList := data.value;
        filteredImoveis := data.value;
        loading := false;
      } else {
        error := Some(MSG_ERRO);
        loading := false;
      }
    }

    /** The effect on the list, the search, the tipo, the bounds and the order. */
    method AplicarFiltros(searchTerm: string, tipoImovel: string, precoMin: string, precoMax: string, ordenacao: string,
                          toNumber: string -> Option<int>)
      modifies this`filteredImoveis
      ensures multiset(filteredImoveis) == multiset(Filtrados(imoveisList, searchTerm, tipoImovel, precoMin, precoMax, toNumber))
      ensures OrdenadoPor(filteredImoveis, Chave(ordenacao))
    {
      filteredImoveis := FiltrarEOrdenar(imoveisList, searchTerm, tipoImovel, precoMin, precoMax, ordenacao, toNumber);
    }
  }
}
