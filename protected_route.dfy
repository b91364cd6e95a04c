/**
 * The client-side guard around pages (components/protected-route.tsx): what
 * it renders and where its effect redirects.
 */
module ProtectedRoute {
  import opened Wrappers

  /** `userType` truthy: present and not empty. */
  predicate Logado(userType: Option<string>)
  {
    userType.Some? && userType.value != ""
  }

  predicate Permitido(userType: Option<string>, allowedTypes: seq<string>)
  {
    Logado(userType) && userType.value in allowedTypes
  }

  /** The effect: `None` when it does not navigate. */
  function Redirecionamento(userType: Option<string>, allowedTypes: seq<string>): (r: Option<string>)
    ensures !Logado(userType) ==> r == Some("/login")
    ensures r.None? <==> Permitido(userType, allowedTypes)
    ensures Logado(userType) && !Permitido(userType, allowedTypes) ==>
              r == Some(if userType.value == "admin" then "/admin/dashboard" else "/cliente/home")
  {
    if !Logado(userType) then Some("/login")
    else if userType.value !in allowedTypes then
      Some(if userType.value == "admin" then "/admin/dashboard" else "/cliente/home")
    else None
  }

  /** The render: whether the children are shown (otherwise `null`). */
  function MostraFilhos(userType: Option<string>, allowedTypes: seq<string>): (r: bool)
    ensures r <==> Permitido(userType, allowedTypes)
  {
    !(!Logado(userType) || userType.value !in allowedTypes)
  }

  /** The guard shows its children exactly when it does not navigate away. */
  lemma MostraOuRedireciona(userType: Option<string>, allowedTypes: seq<string>)
    ensures MostraFilhos(userType, allowedTypes) <==> Redirecionamento(userType, allowedTypes).None?
  {
  }

  /** An admin sent away from a client-only page lands on a page that allows admins when its guard lists them. */
  lemma AdminVaiParaSeuPainel(allowedTypes: seq<string>)
    requires "admin" !in allowedTypes
    ensures Redirecionamento(Some("admin"), allowedTypes) == Some("/admin/dashboard")
    ensures Redirecionamento(Some("admin"), ["admin"]).None?
  {
  }
}
