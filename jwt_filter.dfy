/**
 * `JwtAuthenticationFilter`: reading the bearer token from the
 * `Authorization` header, and the per-request flow that may set the
 * security context and always continues the filter chain.
 *
 * `JwtTokenProvider` and `UsuarioService.loadUserById` are not part of this
 * model: they are functions passed in, with None standing for a call that throws.
 */
module JwtFilter {
  import opened Wrappers
  import opened Entities
  import opened Text

  const BEARER := "Bearer "

  /** `getJwtFromRequest`. */
  function GetJwtFromRequest(header: Option<string>): (r: Option<string>)
    ensures r.Some? <==> header.Some? && HasText(header.value) && IsPrefix(BEARER, header.value)
    ensures r.Some? ==> header.value == BEARER + r.value
  {
    if header.Some? && HasText(header.value) && IsPrefix(BEARER, header.value)
    then Some(header.value[|BEARER|..])
    else None
  }

  /** Every token sent after the prefix is read back as it was sent. */
  lemma BearerRoundTrip(token: string)
    ensures GetJwtFromRequest(Some(BEARER + token)) == Some(token)
  {
    var h := BEARER + token;
    assert !IsJavaWhitespace(h[0]);
    assert h[..|BEARER|] == BEARER;
  }

  /** A missing or blank header, or one without the prefix, gives no token. */
  lemma SemToken(header: Option<string>)
    requires header.None? || !HasText(header.value) || !IsPrefix(BEARER, header.value)
    ensures GetJwtFromRequest(header).None?
  {
  }

  /**
   * The user the request authenticates as: a token with text that validates,
   * whose user id and user load without throwing. None leaves the context as it was.
   */
  function Autenticado(header: Option<string>, validate: string -> Option<bool>,
                       userIdOf: string -> Option<int>, loadUserById: int -> Option<Usuario>): (u: Option<Usuario>)
    ensures u.Some? ==> GetJwtFromRequest(header).Some? && HasText(GetJwtFromRequest(header).value)
    ensures u.Some? ==> validate(GetJwtFromRequest(header).value) == Some(true)
    ensures u.Some? ==> userIdOf(GetJwtFromRequest(header).value).Some?
    ensures u.Some? ==> loadUserById(userIdOf(GetJwtFromRequest(header).value).value) == u
    ensures var jwt := GetJwtFromRequest(header);
            jwt.Some? && HasText(jwt.value) && validate(jwt.value) == Some(true) && userIdOf(jwt.value).Some?
            ==> u == loadUserById(userIdOf(jwt.value).value)
  {
    var jwt := GetJwtFromRequest(header);
    if jwt.None? || !HasText(jwt.value) || validate(jwt.value) != Some(true) then None
    else
      var id := userIdOf(jwt.value);
      if id.None? then None else loadUserById(id.value)
  }

  /** The header "Bearer " alone yields an empty token, which never authenticates. */
  lemma BearerSozinho(validate: string -> Option<bool>, userIdOf: string -> Option<int>, loadUserById: int -> Option<Usuario>)
    ensures GetJwtFromRequest(Some(BEARER)) == Some("")
    ensures Autenticado(Some(BEARER), validate, userIdOf, loadUserById).None?
  {
    BearerRoundTrip("");
    assert BEARER + "" == BEARER;
  }

  /** The state one request touches: the security context and the rest of the filter chain. */
  class Requisicao {
    /** `SecurityContextHolder.getContext().getAuthentication()`'s principal. */
    var autenticacao: Option<Usuario>
    /** How many times `filterChain.doFilter` has been called. */
    var continuacoes: nat

    constructor (autenticacao: Option<Usuario>)
      ensures this.autenticacao == autenticacao && continuacoes == 0
    {
      this.autenticacao := autenticacao;
      continuacoes := 0;
    }

    /**
     * `doFilterInternal`: every throwing step is caught, so the chain continues
     * exactly once on every path.
     */
    method DoFilterInternal(header: Option<string>, validate: string -> Option<bool>,
                            userIdOf: string -> Option<int>, loadUserById: int -> Option<Usuario>)
      modifies this
      ensures continuacoes == old(continuacoes) + 1
      ensures var u := Autenticado(header, validate, userIdOf, loadUserById);
              autenticacao == if u.Some? then u else old(autenticacao)
    {
      var jwt := GetJwtFromRequest(header);
      if jwt.Some? && HasText(jwt.value) {
        var valido := validate(jwt.value);
        if valido == Some(true) {
          var userId := userIdOf(jwt.value);
          if userId.Some? {
            var userDetails := loadUserById(userId.value);
            if userDetails.Some? {
              autenticacao := userDetails;
            }
          }
        }
      }
      continuacoes := continuacoes + 1;
    }
  }
}
