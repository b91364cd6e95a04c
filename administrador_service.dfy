/**
 * `AdministradorService`: registration, update and deletion over the
 * administrators table. `Administrador.prePersist` sets the type on insert.
 */
module AdministradorService {
  import opened Wrappers
  import opened Entities
  import opened Database
  import opened UsuarioService

  const ADMIN := "ADMIN"

  /** The row `save` inserts: fresh id, encoded password, and the type `prePersist` writes. */
  function Inserido(a: Usuario, id: int, hash: string): (r: Usuario)
    ensures r.id == id && r.senha == Some(hash) && r.tipo == Some(ADMIN)
    ensures r.nome == a.nome && r.email == a.email
  {
    a.(id := id, senha := Some(hash), tipo := Some(ADMIN))
  }

  /** `cadastrar`. */
  method Cadastrar(db: Db, a: Usuario, encode: string -> string) returns (r: Result<Usuario, Failure>)
    requires db.Valid()
    modifies db`administradores, db`nextId
    ensures db.Valid()
    ensures old(EmailEmUso(db, a.email)) ==> r == Err(Business(MSG_EMAIL_CADASTRADO))
    ensures !old(EmailEmUso(db, a.email)) && a.senha.None? ==> r == Err(Unexpected(MSG_SENHA_NULA))
    ensures r.Ok? <==> !old(EmailEmUso(db, a.email)) && a.senha.Some?
    ensures r.Err? ==> db.administradores == old(db.administradores) && db.nextId == old(db.nextId)
    ensures r.Ok? ==> r.value == Inserido(a, old(db.nextId), encode(a.senha.value))
    ensures r.Ok? ==> db.administradores == old(db.administradores)[r.value.id := r.value] && db.nextId == old(db.nextId) + 1
  {
    if EmailEmUso(db, a.email) {
      return Err(Business(MSG_EMAIL_CADASTRADO));
    }
    var hash := Codificar(a.senha, encode);
    if hash.Err? {
      return Err(hash.error);
    }
    var salvo := Inserido(a, db.nextId, hash.value);
    db.administradores := db.administradores[salvo.id := salvo];
    db.nextId := db.nextId + 1;
    return Ok(salvo);
  }

  /** `atualizar`: a merge, so `prePersist` does not run and the request's type is saved. */
  method Atualizar(db: Db, id: int, a: Usuario, encode: string -> string) returns (r: Result<Usuario, Failure>)
    requires db.Valid()
    modifies db`administradores
    ensures db.Valid()
    ensures r.Ok? <==> id in old(db.administradores)
    ensures r.Err? ==> r.error == NotFound("Administrador não encontrado") && db.administradores == old(db.administradores)
    ensures r.Ok? ==> r.value == Atualizado(id, a, old(db.administradores)[id], encode)
    ensures r.Ok? ==> db.administradores == old(db.administradores)[id := r.value]
  {
    var existente := BuscarAdministrador(db, id);
    if existente.Err? {
      return Err(existente.error);
    }
    var salvo := Atualizado(id, a, existente.value, encode);
    db.administradores := db.administradores[id := salvo];
    return Ok(salvo);
  }

  /** Some property references the administrator: its NOT NULL `administrador_id` and the uncascaded `Administrador.imoveis` block the delete. */
  predicate PossuiImoveis(imoveis: map<int, Imovel>, administradorId: int)
  {
    exists k :: k in imoveis && imoveis[k].administradorId == administradorId
  }

  /** `excluir`: the lookup, then `delete`, which the database refuses while a property references the administrator. */
  method Excluir(db: Db, id: int) returns (r: Result<(), Failure>)
    requires db.Valid()
    modifies db`administradores
    ensures db.Valid()
    ensures r.Ok? <==> id in old(db.administradores) && !PossuiImoveis(db.imoveis, id)
    ensures id !in old(db.administradores) ==> r == Err(NotFound("Administrador não encontrado"))
    ensures id in old(db.administradores) && PossuiImoveis(db.imoveis, id) ==> r == Err(Unexpected(MSG_RESTRICAO))
    ensures r.Err? ==> db.administradores == old(db.administradores)
    ensures r.Ok? ==> db.administradores == old(db.administradores) - {id}
  {
    var existente := BuscarAdministrador(db, id);
    if existente.Err? {
      return Err(existente.error);
    }
    if PossuiImoveis(db.imoveis, id) {
      return Err(Unexpected(MSG_RESTRICAO));
    }
    db.administradores := db.administradores - {id};
    return Ok(());
  }
}
