/**
 * `useAsyncList` (hooks/useAsyncList.ts): three state cells, `items`,
 * `loading` and `error`, set in sequence around one fetch.
 *
 * As in `useDataTableState`, the load is split at its `await`, and the fetch's
 * outcome is a parameter.
 */
module AsyncListHook {
  import opened Wrappers

  const MSG_ERRO_CARREGAR := "Erro ao carregar itens"

  /** A JavaScript `Error` object, by its message. */
  datatype Erro = Erro(message: string)

  /** What the fetch threw: an `Error`, or any other value. */
  datatype Lancado = LancouErro(erro: Erro) | LancouOutroValor

  /** The outcome of `fetchItems()`. */
  datatype Resultado<T> = Sucesso(data: seq<T>) | Falha(lancado: Lancado)

  datatype Lista<T> = Lista(items: seq<T>, loading: bool, error: Option<Erro>)

  /** `err instanceof Error ? err : new Error('Erro ao carregar itens')`. */
  function ErroDe(l: Lancado): (e: Erro)
    ensures l.LancouErro? ==> e == l.erro
    ensures l.LancouOutroValor? ==> e.message == MSG_ERRO_CARREGAR
  {
    if l.LancouErro? then l.erro else Erro(MSG_ERRO_CARREGAR)
  }

  /** The first render: `initialItems` (default `[]`), loading, no error. */
  function Inicial<T>(initialItems: Option<seq<T>>): (s: Lista<T>)
    ensures s.loading && s.error == None
    ensures s.items == if initialItems.Some? then initialItems.value else []
  {
    Lista(if initialItems.Some? then initialItems.value else [], true, None)
  }

  /** `setLoading(true); setError(null)`. */
  function Comecada<T>(s: Lista<T>): (r: Lista<T>)
    ensures r.loading && r.error == None && r.items == s.items
  {
    s.(loading := true, error := None)
  }

  /** After the fetch: `setItems(data)` or `setError(...)`, then `setLoading(false)`. */
  function Concluida<T>(s: Lista<T>, resultado: Resultado<T>): (r: Lista<T>)
    ensures !r.loading
    ensures resultado.Sucesso? ==> r.items == resultado.data && r.error == s.error
    ensures resultado.Falha? ==> r.items == s.items && r.error == Some(ErroDe(resultado.lancado))
  {
    match resultado
    case Sucesso(data) => s.(items := data, loading := false)
    case Falha(lancado) => s.(error := Some(ErroDe(lancado)), loading := false)
  }

  function Carregada<T>(s: Lista<T>, resultado: Resultado<T>): Lista<T>
  {
    Concluida(Comecada(s), resultado)
  }

  /**
   * A load ends with `loading` false; a success clears the error and a failure
   * keeps the items the list already had.
   */
  lemma CargaTermina<T>(s: Lista<T>, resultado: Resultado<T>)
    ensures !Carregada(s, resultado).loading
    ensures resultado.Sucesso? ==> Carregada(s, resultado) == Lista(resultado.data, false, None)
    ensures resultado.Falha? ==> Carregada(s, resultado).items == s.items && Carregada(s, resultado).error.Some?
  {
  }

  /** A non-`Error` throw reports the generic message; an `Error` reports its own. */
  lemma MensagemDaFalha<T>(s: Lista<T>, m: string)
    ensures Carregada(s, Falha(LancouOutroValor)).error == Some(Erro(MSG_ERRO_CARREGAR))
    ensures Carregada(s, Falha(LancouErro(Erro(m)))).error == Some(Erro(m))
  {
  }

  /** A failed refresh after a successful load still shows the loaded items. */
  lemma FalhaMantemItens<T>(s: Lista<T>, data: seq<T>, l: Lancado)
    ensures Carregada(Carregada(s, Sucesso(data)), Falha(l)).items == data
  {
  }

  class AsyncList<T> {
    var items: seq<T>
    var loading: bool
    var error: Option<Erro>

    function Atual(): Lista<T>
      reads this
    {
      Lista(items, loading, error)
    }

    constructor (initialItems: Option<seq<T>>)
      ensures Atual() == Inicial(initialItems)
    {
      items := if initialItems.Some? then initialItems.value else [];
      loading := true;
      error := None;
    }

    method ComecarCarga()
      modifies this
      ensures Atual() == Comecada(old(Atual()))
    {
      loading := true;
      error := None;
    }

    method ConcluirCarga(resultado: Resultado<T>)
      modifies this
      ensures Atual() == Concluida(old(Atual()), resultado)
    {
      match resultado {
        case Sucesso(data) =>
          items := data;
        case Falha(lancado) =>
          error := Some(if lancado.LancouErro? then lancado.erro else Erro(MSG_ERRO_CARREGAR));
      }
      loading := false;
    }

    /** `loadItems`, which is also what `refresh` is. */
    method LoadItems(resultado: Resultado<T>)
      modifies this
      ensures Atual() == Carregada(old(Atual()), resultado)
    {
      ComecarCarga();
      ConcluirCarga(resultado);
    }
  }
}
