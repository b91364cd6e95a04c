/**
 * The request filter of the front end (middleware.ts): which paths it runs
 * on, and whether a request passes or is sent to the login page.
 */
module Middleware {
  import opened Wrappers
  import opened Text

  const PUBLICAS: seq<string> := ["/login", "/register", "/api/auth/login"]

  datatype Decisao = Prosseguir | Redirecionar(destino: string)

  /** `cookies.get(nome)?.value`, truthy: present and not empty. */
  predicate CookieTruthy(cookies: map<string, string>, nome: string)
  {
    nome in cookies && cookies[nome] != ""
  }

  /** `middleware(request)`. */
  function Decidir(pathname: string, cookies: map<string, string>): (r: Decisao)
    ensures pathname in PUBLICAS ==> r == Prosseguir
    ensures pathname !in PUBLICAS && !CookieTruthy(cookies, "auth_token") ==> r == Redirecionar("/login")
    ensures pathname !in PUBLICAS && IsPrefix("/dashboard", pathname) && !CookieTruthy(cookies, "user_type") ==>
              r == Redirecionar("/login")
    ensures r == Prosseguir <==>
              pathname in PUBLICAS
              || (CookieTruthy(cookies, "auth_token") && (!IsPrefix("/dashboard", pathname) || CookieTruthy(cookies, "user_type")))
    ensures r != Prosseguir ==> r == Redirecionar("/login")
  {
    if pathname in PUBLICAS then Prosseguir
    else if !CookieTruthy(cookies, "auth_token") then Redirecionar("/login")
    else if IsPrefix("/dashboard", pathname) && !CookieTruthy(cookies, "user_type") then Redirecionar("/login")
    else Prosseguir
  }

  /** The public list is matched exactly: a trailing slash makes '/login/' a protected path. */
  lemma BarraFinalNaoEPublica(cookies: map<string, string>)
    requires !CookieTruthy(cookies, "auth_token")
    ensures Decidir("/login", cookies) == Prosseguir
    ensures Decidir("/login/", cookies) == Redirecionar("/login")
  {
    assert "/login/" != "/login" && "/login/" != "/register" && "/login/" != "/api/auth/login";
  }

  /** A redirect never targets a path the filter would redirect again. */
  lemma DestinoEPublico(pathname: string, cookies: map<string, string>)
    ensures Decidir(pathname, cookies).Redirecionar? ==> Decidir(Decidir(pathname, cookies).destino, cookies) == Prosseguir
  {
  }

  /**
   * `config.matcher`, `/((?!_next/static|_next/image|favicon.ico).*)`: the
   * filter runs on every path except those whose rest after the first '/'
   * starts with one of the three alternatives; the regex '.' matches any
   * character.
   */
  predicate Executa(pathname: string)
  {
    |pathname| >= 1 && pathname[0] == '/'
    && var resto := pathname[1..];
       !IsPrefix("_next/static", resto) && !IsPrefix("_next/image", resto)
       && !(|resto| >= 11 && resto[..7] == "favicon" && resto[8..11] == "ico")
  }

  /** What happens to a request: the filter's decision where it runs, passing through elsewhere. */
  function Responder(pathname: string, cookies: map<string, string>): (r: Decisao)
    ensures !Executa(pathname) ==> r == Prosseguir
    ensures Executa(pathname) ==> r == Decidir(pathname, cookies)
  {
    if Executa(pathname) then Decidir(pathname, cookies) else Prosseguir
  }

  /** Static assets pass without a token. */
  lemma EstaticosSemToken(cookies: map<string, string>)
    ensures Responder("/_next/static/app.js", cookies) == Prosseguir
    ensures Responder("/favicon.ico", cookies) == Prosseguir
  {
    assert "/_next/static/app.js"[1..][..12] == "_next/static";
    assert "/favicon.ico"[1..][..7] == "favicon" && "/favicon.ico"[1..][8..11] == "ico";
  }
}
