/**
 * What the three user services share: the e-mail check of `UsuarioService`,
 * the `PasswordEncoder`, and the password rule of every `atualizar`.
 *
 * BCrypt is not modelled: the encoder is a function passed in by the caller.
 */
module UsuarioService {
  import opened Wrappers
  import opened Entities

  const MSG_EMAIL_CADASTRADO := "Email já cadastrado"
  /** What `BCryptPasswordEncoder.encode(null)` throws. */
  const MSG_SENHA_NULA := "rawPassword cannot be null"

  /** `passwordEncoder.encode(senha)`: a null password throws instead of being encoded. */
  function Codificar(senha: Option<string>, encode: string -> string): (r: Result<string, Failure>)
    ensures r.Ok? <==> senha.Some?
    ensures r.Ok? ==> r.value == encode(senha.value)
    ensures r.Err? ==> r.error == Unexpected(MSG_SENHA_NULA)
  {
    if senha.None? then Err(Unexpected(MSG_SENHA_NULA)) else Ok(encode(senha.value))
  }

  /** `senha != null && !senha.isEmpty() ? encode(senha) : existente.getSenha()`. */
  function SenhaAoAtualizar(nova: Option<string>, existente: Option<string>, encode: string -> string): (r: Option<string>)
    ensures nova.None? || nova.value == "" ==> r == existente
    ensures nova.Some? && nova.value != "" ==> r == Some(encode(nova.value))
  {
    if nova.Some? && nova.value != "" then Some(encode(nova.value)) else existente
  }

  /**
   * The row `atualizar` saves: the request's fields, the path's id, and the
   * password rule above. Nothing else is kept from the stored row.
   */
  function Atualizado(id: int, novo: Usuario, existente: Usuario, encode: string -> string): (r: Usuario)
    ensures r.id == id
    ensures r.nome == novo.nome && r.email == novo.email && r.tipo == novo.tipo
    ensures r.senha == SenhaAoAtualizar(novo.senha, existente.senha, encode)
  {
    novo.(id := id, senha := SenhaAoAtualizar(novo.senha, existente.senha, encode))
  }

  /** Updating twice with the same request gives the same row as updating once. */
  lemma AtualizarIdempotente(id: int, novo: Usuario, existente: Usuario, encode: string -> string)
    ensures Atualizado(id, novo, Atualizado(id, novo, existente, encode), encode) == Atualizado(id, novo, existente, encode)
  {
  }
}
