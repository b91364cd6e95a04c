/** The in-page role guard (components/role-content.tsx). */
module RoleContent {
  import opened Wrappers

  /** What the guard renders: its children, its fallback, or `null`. */
  datatype Conteudo<T> = Filhos | Fallback(no: T) | Nada

  /**
   * `RoleContent`: `fallback` is `None` when it is absent or falsy, and then
   * `fallback || null` is `null`.
   */
  function Renderizar<T>(userType: Option<string>, roles: seq<string>, fallback: Option<T>): (r: Conteudo<T>)
    ensures r == Filhos <==> userType.Some? && userType.value != "" && userType.value in roles
    ensures r != Filhos ==> r == (if fallback.Some? then Fallback(fallback.value) else Nada)
  {
    if userType.None? || userType.value == "" || userType.value !in roles then
      (if fallback.Some? then Fallback(fallback.value) else Nada)
    else Filhos
  }

  /** Without a user the fallback is shown, whatever the roles. */
  lemma SemUsuarioMostraFallback<T>(roles: seq<string>, fallback: T)
    ensures Renderizar(None, roles, Some(fallback)) == Fallback(fallback)
    ensures Renderizar<T>(None, roles, None) == Nada
  {
  }
}
