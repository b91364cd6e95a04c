/**
 * What a submit handler of the front end does around its request: it sets
 * `loading`, shows toasts and may navigate with the router.
 */
module FormState {
  import opened Wrappers

  datatype Toast = ToastSucesso(mensagem: string) | ToastErro(mensagem: string)

  /** `mensagem || padrao`, for a message that may be absent or empty. */
  function MensagemOu(mensagem: Option<string>, padrao: string): (r: string)
    ensures mensagem.Some? && mensagem.value != "" ==> r == mensagem.value
    ensures mensagem.None? || mensagem.value == "" ==> r == padrao
  {
    if mensagem.Some? && mensagem.value != "" then mensagem.value else padrao
  }

  class EstadoEnvio {
    var loading: bool
    var toasts: seq<Toast>
    var rota: Option<string>

    /** `useState(false)`, before any toast or navigation. */
    constructor ()
      ensures !loading && toasts == [] && rota == None
    {
      loading := false;
      toasts := [];
      rota := None;
    }

    /** `setLoading(true)` at the start of the handler. */
    method Iniciar()
      modifies this`loading
      ensures loading
    {
      loading := true;
    }

    /** A toast. */
    method Avisar(t: Toast)
      modifies this`toasts
      ensures toasts == old(toasts) + [t]
    {
      toasts := toasts + [t];
    }

    /** `router.push(destino)`. */
    method Navegar(destino: string)
      modifies this`rota
      ensures rota == Some(destino)
    {
      rota := Some(destino);
    }

    /** The `finally` block: `setLoading(false)`. */
    method Concluir()
      modifies this`loading
      ensures !loading
    {
      loading := false;
    }
  }
}
