/**
 * `DataTable` (components/data-table/DataTable.tsx): what the table shows for
 * the `data`, `currentPage`, `itemsPerPage`, `loading` and `error` it is given,
 * and which page each pagination button requests.
 */
module DataTable {
  import opened Wrappers
  import opened Seqs

  /** `data.slice(startIndex, endIndex)` with `startIndex = (currentPage - 1) * itemsPerPage`. */
  function Pagina<T>(data: seq<T>, currentPage: int, itemsPerPage: int): seq<T>
  {
    var startIndex := (currentPage - 1) * itemsPerPage;
    Slice(data, startIndex, startIndex + itemsPerPage)
  }

  function Min(a: int, b: int): int { if a < b then a else b }

  /** `Math.ceil(data.length / itemsPerPage)`. */
  function TotalPages(length: nat, itemsPerPage: int): (r: nat)
    requires itemsPerPage > 0
    ensures r * itemsPerPage >= length
    ensures r > 0 ==> (r - 1) * itemsPerPage < length
    ensures r == 0 <==> length == 0
  {
    (length + itemsPerPage - 1) / itemsPerPage
  }

  /** Page `p` (from 1) is the contiguous run of rows from `(p-1)·n` to `(p-1)·n + n`, clipped to the data. */
  lemma PaginaContigua<T>(data: seq<T>, p: int, n: int)
    requires p >= 1 && n > 0
    ensures var lo := (p - 1) * n;
            lo >= 0 && Pagina(data, p, n) == data[Min(lo, |data|)..Min(lo + n, |data|)]
    ensures |Pagina(data, p, n)| <= n
  {
    var lo := (p - 1) * n;
    MulNaoNegativo(p - 1, n);
    SliceNonNegative(data, lo, lo + n);
  }

  /** Keeps the nonlinear fact out of the page proofs, which run out of resource when they must find it themselves. */
  lemma MulNaoNegativo(a: nat, b: nat)
    ensures a * b >= 0
  {
  }

  lemma MulPasso(k: nat, n: nat)
    requires k > 0
    ensures (k - 1) * n + n == k * n
  {
  }

  /** Pages 1 to k, one after the other. */
  function Paginas<T>(data: seq<T>, n: int, k: nat): seq<T>
  {
    if k == 0 then [] else Paginas(data, n, k - 1) + Pagina(data, k, n)
  }

  lemma {:induction false} PaginasPrefixo<T>(data: seq<T>, n: int, k: nat)
    requires n > 0
    ensures k * n >= 0 && Paginas(data, n, k) == data[..Min(k * n, |data|)]
  {
    MulNaoNegativo(k, n);
    if k > 0 {
      PaginasPrefixo(data, n, k - 1);
      PaginaContigua(data, k, n);
      MulPasso(k, n);
      var lo, hi := Min((k - 1) * n, |data|), Min(k * n, |data|);
      assert lo <= hi;
      assert data[..lo] + data[lo..hi] == data[..hi];
    }
  }

  /** Pages 1 to `totalPages` lay the whole data out once, in order. */
  lemma PaginasParticionam<T>(data: seq<T>, n: int)
    requires n > 0
    ensures Paginas(data, n, TotalPages(|data|, n)) == data
  {
    PaginasPrefixo(data, n, TotalPages(|data|, n));
  }

  /** A page after the last one is empty. */
  lemma AlemDaUltima<T>(data: seq<T>, p: int, n: int)
    requires n > 0 && p > TotalPages(|data|, n)
    ensures Pagina(data, p, n) == []
  {
    var t := TotalPages(|data|, n);
    MulNaoNegativo(p - 1 - t, n);
    assert (p - 1) * n == t * n + (p - 1 - t) * n;
    PaginaContigua(data, p, n);
  }

  /** What the component renders. */
  datatype Vista<T> =
    | Carregando
    | MensagemErro(mensagem: string)
    | Tabela(linhas: seq<T>, nenhumRegistro: bool,
             anteriorDesabilitado: bool, proximaDesabilitada: bool,
             paginaAnterior: int, proximaPagina: int, totalPaginas: nat)

  /**
   * `DataTable`: "Carregando..." first, then a truthy `error`, then the page with
   * its "Nenhum registro encontrado" row when empty and its two buttons.
   */
  function Renderizar<T>(data: seq<T>, currentPage: int, itemsPerPage: int, loading: bool, error: Option<string>): (v: Vista<T>)
    requires itemsPerPage > 0
    ensures loading <==> v.Carregando?
    ensures v.MensagemErro? <==> !loading && error.Some? && error.value != ""
    ensures v.MensagemErro? ==> v.mensagem == error.value
    ensures v.Tabela? ==>
              v.linhas == Pagina(data, currentPage, itemsPerPage) && (v.nenhumRegistro <==> v.linhas == []) &&
              v.totalPaginas == TotalPages(|data|, itemsPerPage)
    ensures v.Tabela? ==> (v.anteriorDesabilitado <==> currentPage == 1) && (v.proximaDesabilitada <==> currentPage == v.totalPaginas)
    ensures v.Tabela? ==> v.paginaAnterior == currentPage - 1 && v.proximaPagina == currentPage + 1
  {
    if loading then Carregando
    else if error.Some? && error.value != "" then MensagemErro(error.value)
    else
      var linhas := Pagina(data, currentPage, itemsPerPage);
      var totalPages := TotalPages(|data|, itemsPerPage);
      Tabela(linhas, |linhas| == 0, currentPage == 1, currentPage == totalPages, currentPage - 1, currentPage + 1, totalPages)
  }

  /** Loading hides an error that is also set. */
  lemma CarregandoAntesDoErro<T>(data: seq<T>, p: int, n: int, mensagem: string)
    requires n > 0
    ensures Renderizar(data, p, n, true, Some(mensagem)) == Carregando
  {
  }

  /** With no data there are 0 pages, so on page 1 "Próxima" stays enabled and leads to page 2. */
  lemma ProximaHabilitadaSemDados<T>(n: int)
    requires n > 0
    ensures var v := Renderizar<T>([], 1, n, false, None);
            v.Tabela? && v.nenhumRegistro && v.anteriorDesabilitado && !v.proximaDesabilitada && v.proximaPagina == 2
  {
  }

  /** On the last page of non-empty data, "Próxima" is disabled; on page 1, "Anterior" is. */
  lemma BotoesNosExtremos<T>(data: seq<T>, n: int)
    requires n > 0 && data != []
    ensures Renderizar(data, TotalPages(|data|, n), n, false, None).proximaDesabilitada
    ensures Renderizar(data, 1, n, false, None).anteriorDesabilitado
    ensures Renderizar(data, 1, n, false, None).linhas != []
  {
    PaginaContigua(data, 1, n);
  }
}
