/**
 * `ProprietarioService`: registration, update and deletion over the owners
 * table. `Proprietario.init` is a `@PostConstruct` callback, which JPA never
 * calls on an entity, so the type is saved as the request sent it.
 */
module ProprietarioService {
  import opened Wrappers
  import opened Entities
  import opened Database
  import opened UsuarioService

  /** The row `save` inserts: fresh id and encoded password; the type is left as sent. */
  function Inserido(p: Usuario, id: int, hash: string): (r: Usuario)
    ensures r.id == id && r.senha == Some(hash) && r.tipo == p.tipo
    ensures r.nome == p.nome && r.email == p.email
  {
    p.(id := id, senha := Some(hash))
  }

  /** `cadastrar`. */
  method Cadastrar(db: Db, p: Usuario, encode: string -> string) returns (r: Result<Usuario, Failure>)
    requires db.Valid()
    modifies db`proprietarios, db`nextId
    ensures db.Valid()
    ensures old(EmailEmUso(db, p.email)) ==> r == Err(Business(MSG_EMAIL_CADASTRADO))
    ensures !old(EmailEmUso(db, p.email)) && p.senha.None? ==> r == Err(Unexpected(MSG_SENHA_NULA))
    ensures r.Ok? <==> !old(EmailEmUso(db, p.email)) && p.senha.Some?
    ensures r.Err? ==> db.proprietarios == old(db.proprietarios) && db.nextId == old(db.nextId)
    ensures r.Ok? ==> r.value == Inserido(p, old(db.nextId), encode(p.senha.value))
    ensures r.Ok? ==> db.proprietarios == old(db.proprietarios)[r.value.id := r.value] && db.nextId == old(db.nextId) + 1
  {
    if EmailEmUso(db, p.email) {
      return Err(Business(MSG_EMAIL_CADASTRADO));
    }
    var hash := Codificar(p.senha, encode);
    if hash.Err? {
      return Err(hash.error);
    }
    var salvo := Inserido(p, db.nextId, hash.value);
    db.proprietarios := db.proprietarios[salvo.id := salvo];
    db.nextId := db.nextId + 1;
    return Ok(salvo);
  }

  /** `atualizar`. */
  method Atualizar(db: Db, id: int, p: Usuario, encode: string -> string) returns (r: Result<Usuario, Failure>)
    requires db.Valid()
    modifies db`proprietarios
    ensures db.Valid()
    ensures r.Ok? <==> id in old(db.proprietarios)
    ensures r.Err? ==> r.error == NotFound("Proprietário não encontrado") && db.proprietarios == old(db.proprietarios)
    ensures r.Ok? ==> r.value == Atualizado(id, p, old(db.proprietarios)[id], encode)
    ensures r.Ok? ==> db.proprietarios == old(db.proprietarios)[id := r.value]
  {
    var existente := BuscarProprietario(db, id);
    if existente.Err? {
      return Err(existente.error);
    }
    var salvo := Atualizado(id, p, existente.value, encode);
    db.proprietarios := db.proprietarios[id := salvo];
    return Ok(salvo);
  }

  /** `excluir`. */
  method Excluir(db: Db, id: int) returns (r: Result<(), Failure>)
    requires db.Valid()
    modifies db`proprietarios
    ensures db.Valid()
    ensures r.Ok? <==> id in old(db.proprietarios)
    ensures r.Err? ==> r.error == NotFound("Proprietário não encontrado") && db.proprietarios == old(db.proprietarios)
    ensures r.Ok? ==> db.proprietarios == old(db.proprietarios) - {id}
  {
    var existente := BuscarProprietario(db, id);
    if existente.Err? {
      return Err(existente.error);
    }
    db.proprietarios := db.proprietarios - {id};
    return Ok(());
  }
}
