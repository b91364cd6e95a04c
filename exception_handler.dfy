/**
 * `GlobalExceptionHandler`: the mapping from a thrown exception to the
 * `ApiError` body and HTTP status.
 *
 * Spring picks the handler whose exception type is nearest to the thrown
 * exception's class; an exception is modelled by its superclass chain, from
 * its own class up to `Exception`, and the nearest handler is the first class
 * of the chain that has one. The timestamp is left out.
 */
module ExceptionHandler {
  import opened Wrappers
  import opened Entities

  datatype Classe =
    | ResourceNotFoundException
    | BusinessException
    | MethodArgumentNotValidException
    | ConstraintViolationException
    | BadCredentialsException
    | AccessDeniedException
    | AuthenticationException
    | RuntimeException
    | Exception
    | Outra(nome: string)

  /** An exception value: its class chain, its message, and the validation messages it carries. */
  datatype Excecao = Excecao(cadeia: seq<Classe>, message: string, detalhes: seq<string>)

  datatype ApiError = ApiError(status: int, error: string, message: string, path: string, details: Option<seq<string>>)

  /** The classes that have a handler method. */
  predicate Tratada(c: Classe)
  {
    !c.RuntimeException? && !c.Outra?
  }

  /** `HttpStatus.getReasonPhrase()` for the codes the handler uses. */
  function Motivo(status: int): string
  {
    match status
    case 400 => "Bad Request"
    case 401 => "Unauthorized"
    case 403 => "Forbidden"
    case 404 => "Not Found"
    case 500 => "Internal Server Error"
    case _ => ""
  }

  /** The nearest handled class: the first of the chain that has a handler. */
  function Nearest(cadeia: seq<Classe>): (r: Option<Classe>)
    ensures r.Some? ==> exists i :: 0 <= i < |cadeia| && cadeia[i] == r.value
    ensures r.Some? ==> Tratada(r.value)
    ensures r.Some? ==> exists i :: 0 <= i < |cadeia| && cadeia[i] == r.value && forall j :: 0 <= j < i ==> !Tratada(cadeia[j])
    ensures r.None? <==> forall i :: 0 <= i < |cadeia| ==> !Tratada(cadeia[i])
  {
    if cadeia == [] then None
    else if Tratada(cadeia[0]) then Some(cadeia[0])
    else
      var r := Nearest(cadeia[1..]);
      assert forall i :: 1 <= i < |cadeia| ==> cadeia[i] == cadeia[1..][i - 1];
      if r.Some? then
        ghost var i :| 0 <= i < |cadeia[1..]| && cadeia[1..][i] == r.value && forall j :: 0 <= j < i ==> !Tratada(cadeia[1..][j]);
        assert cadeia[i + 1] == r.value;
        r
      else r
  }

  /** The nearest handler is the one of the first handled class. */
  lemma {:induction false} NearestIsFirst(cadeia: seq<Classe>, i: nat)
    requires i < |cadeia| && Tratada(cadeia[i])
    requires forall j :: 0 <= j < i ==> !Tratada(cadeia[j])
    ensures Nearest(cadeia) == Some(cadeia[i])
  {
    if i > 0 {
      assert forall j :: 0 <= j < i - 1 ==> cadeia[1..][j] == cadeia[j + 1];
      NearestIsFirst(cadeia[1..], i - 1);
    }
  }

  /** The body one handler method builds. */
  function Corpo(c: Classe, ex: Excecao, path: string): (e: ApiError)
    requires Tratada(c)
    ensures e.error == Motivo(e.status) && e.path == path
    ensures e.details.Some? <==> c.MethodArgumentNotValidException? || c.ConstraintViolationException?
  {
    match c
    case ResourceNotFoundException => ApiError(404, Motivo(404), ex.message, path, None)
    case BusinessException => ApiError(400, Motivo(400), ex.message, path, None)
    case MethodArgumentNotValidException => ApiError(400, Motivo(400), "Erro de validação", path, Some(ex.detalhes))
    case ConstraintViolationException => ApiError(400, Motivo(400), "Erro de validação", path, Some(ex.detalhes))
    case BadCredentialsException => ApiError(401, Motivo(401), "Email ou senha inválidos", path, None)
    case AccessDeniedException => ApiError(403, Motivo(403), "Acesso negado", path, None)
    case AuthenticationException => ApiError(401, Motivo(401), "Não autorizado", path, None)
    case Exception => ApiError(500, Motivo(500), "Ocorreu um erro interno no servidor", path, None)
  }

  /** The response for `ex` on request `path`; None when no handler applies and the exception propagates. */
  function Tratar(ex: Excecao, path: string): (r: Option<ApiError>)
    ensures r.Some? <==> exists i :: 0 <= i < |ex.cadeia| && Tratada(ex.cadeia[i])
    ensures r.Some? ==> r.value.error == Motivo(r.value.status) && r.value.path == path
    ensures r.Some? ==> r.value.status in {400, 401, 403, 404, 500}
  {
    var c := Nearest(ex.cadeia);
    if c.None? then None else Some(Corpo(c.value, ex, path))
  }

  /** Every exception class reaches `Exception`, so every exception is handled. */
  lemma SempreTratada(ex: Excecao, path: string)
    requires Exception in ex.cadeia
    ensures Tratar(ex, path).Some?
  {
    var i :| 0 <= i < |ex.cadeia| && ex.cadeia[i] == Exception;
    assert Tratada(ex.cadeia[i]);
  }

  /** The chain of a Spring Security exception below `AuthenticationException`. */
  function CadeiaDeAutenticacao(cls: seq<Classe>): seq<Classe>
  {
    cls + [AuthenticationException, RuntimeException, Exception]
  }

  /** A bad-credentials exception is answered by its own handler, not the general authentication one. */
  lemma CredenciaisInvalidas(message: string, path: string)
    ensures Tratar(Excecao(CadeiaDeAutenticacao([BadCredentialsException]), message, []), path)
            == Some(ApiError(401, "Unauthorized", "Email ou senha inválidos", path, None))
  {
  }

  /** Any other authentication exception gets the generic 401. */
  lemma OutraAutenticacao(nome: string, message: string, path: string)
    ensures Tratar(Excecao(CadeiaDeAutenticacao([Outra(nome)]), message, []), path)
            == Some(ApiError(401, "Unauthorized", "Não autorizado", path, None))
  {
    NearestIsFirst(CadeiaDeAutenticacao([Outra(nome)]), 1);
  }

  /** An unhandled class hides its message behind a fixed 500. */
  lemma ErroInternoOcultaMensagem(nomes: seq<string>, message: string, path: string)
    ensures var cadeia := Outras(nomes) + [Exception];
            Tratar(Excecao(cadeia, message, []), path)
            == Some(ApiError(500, "Internal Server Error", "Ocorreu um erro interno no servidor", path, None))
  {
    NearestIsFirst(Outras(nomes) + [Exception], |nomes|);
  }

  /** Classes that are not the application's or Spring's: `Outra` for each name. */
  function Outras(nomes: seq<string>): (r: seq<Classe>)
    ensures |r| == |nomes| && forall i :: 0 <= i < |r| ==> r[i] == Outra(nomes[i])
  {
    if nomes == [] then [] else [Outra(nomes[0])] + Outras(nomes[1..])
  }

  /** The exceptions the services throw; each extends `RuntimeException` directly. */
  function DeFalha(f: Failure): (ex: Excecao)
    ensures Exception in ex.cadeia
  {
    match f
    case NotFound(m) => Excecao([ResourceNotFoundException, RuntimeException, Exception], m, [])
    case Business(m) => Excecao([BusinessException, RuntimeException, Exception], m, [])
    case Unexpected(m) => Excecao([RuntimeException, Exception], m, [])
  }

  /** A service failure's response: 404 or 400 with the service's own message, or a 500 that hides it. */
  lemma RespostaDeFalha(f: Failure, path: string)
    ensures f.NotFound? ==> Tratar(DeFalha(f), path) == Some(ApiError(404, "Not Found", f.message, path, None))
    ensures f.Business? ==> Tratar(DeFalha(f), path) == Some(ApiError(400, "Bad Request", f.message, path, None))
    ensures f.Unexpected? ==>
              Tratar(DeFalha(f), path) == Some(ApiError(500, "Internal Server Error", "Ocorreu um erro interno no servidor", path, None))
  {
    if f.Unexpected? {
      NearestIsFirst(DeFalha(f).cadeia, 1);
    } else {
      NearestIsFirst(DeFalha(f).cadeia, 0);
    }
  }

  /** Both validation handlers report the carried messages, in order, under a fixed message. */
  lemma Validacao(cls: Classe, detalhes: seq<string>, message: string, path: string)
    requires cls == MethodArgumentNotValidException || cls == ConstraintViolationException
    ensures Tratar(Excecao([cls, Exception], message, detalhes), path)
            == Some(ApiError(400, "Bad Request", "Erro de validação", path, Some(detalhes)))
  {
  }
}
