/**
 * `ClienteService`: registering a client (with its empty payment history),
 * updating it and deleting it. `Cliente.prePersist` is folded into the
 * registration, the only place a client row is first inserted.
 */
module ClienteService {
  import opened Wrappers
  import opened Entities
  import opened Database
  import opened UsuarioService

  const CLIENTE := "CLIENTE"

  /** The client row `save` inserts: the fresh id, the encoded password, and the `prePersist` defaults. */
  function Inserido(c: Cliente, id: int, hash: string): (r: Cliente)
    ensures r.usuario.id == id && r.usuario.senha == Some(hash) && r.usuario.tipo == Some(CLIENTE)
    ensures r.status == Some(if c.status.None? then ATIVO else c.status.value)
    ensures r.usuario.nome == c.usuario.nome && r.usuario.email == c.usuario.email
    ensures r.telefone == c.telefone && r.endereco == c.endereco
  {
    Cliente(c.usuario.(id := id, senha := Some(hash), tipo := Some(CLIENTE)),
            c.telefone, c.endereco, Some(OptionOr(c.status, ATIVO)))
  }

  /** `cadastrar`. */
  method Cadastrar(db: Db, c: Cliente, encode: string -> string) returns (r: Result<Cliente, Failure>)
    requires db.Valid()
    modifies db`clientes, db`historicos, db`nextId
    ensures db.Valid()
    ensures old(EmailEmUso(db, c.usuario.email)) ==> r == Err(Business(MSG_EMAIL_CADASTRADO))
    ensures !old(EmailEmUso(db, c.usuario.email)) && c.usuario.senha.None? ==> r == Err(Unexpected(MSG_SENHA_NULA))
    ensures r.Ok? <==> !old(EmailEmUso(db, c.usuario.email)) && c.usuario.senha.Some?
    ensures r.Err? ==> db.clientes == old(db.clientes) && db.historicos == old(db.historicos) && db.nextId == old(db.nextId)
    ensures r.Ok? ==> r.value == Inserido(c, old(db.nextId), encode(c.usuario.senha.value))
    ensures r.Ok? ==> db.clientes == old(db.clientes)[r.value.usuario.id := r.value]
    ensures r.Ok? ==> db.historicos == old(db.historicos)[old(db.nextId) + 1 := Historico(old(db.nextId) + 1, r.value.usuario.id, [])]
    ensures r.Ok? ==> forall k :: k in db.historicos && db.historicos[k].clienteId == r.value.usuario.id <==> k == old(db.nextId) + 1
  {
    if EmailEmUso(db, c.usuario.email) {
      return Err(Business(MSG_EMAIL_CADASTRADO));
    }
    var hash := Codificar(c.usuario.senha, encode);
    if hash.Err? {
      return Err(hash.error);
    }
    var salvo := Inserido(c, db.nextId, hash.value);
    db.clientes := db.clientes[salvo.usuario.id := salvo];
    db.nextId := db.nextId + 1;
    var historico := Historico(db.nextId, salvo.usuario.id, []);
    db.historicos := db.historicos[historico.id := historico];
    db.nextId := db.nextId + 1;
    return Ok(salvo);
  }

  /** The client row `atualizar` saves; `save` merges, so `prePersist` does not run again. */
  function Atualizado(id: int, c: Cliente, existente: Cliente, encode: string -> string): (r: Cliente)
    ensures r.usuario == UsuarioService.Atualizado(id, c.usuario, existente.usuario, encode)
    ensures r.telefone == c.telefone && r.endereco == c.endereco && r.status == c.status
  {
    c.(usuario := UsuarioService.Atualizado(id, c.usuario, existente.usuario, encode))
  }

  /** `atualizar`. */
  method Atualizar(db: Db, id: int, c: Cliente, encode: string -> string) returns (r: Result<Cliente, Failure>)
    requires db.Valid()
    modifies db`clientes
    ensures db.Valid()
    ensures r.Ok? <==> id in old(db.clientes)
    ensures r.Err? ==> r.error == NotFound("Cliente não encontrado") && db.clientes == old(db.clientes)
    ensures r.Ok? ==> r.value == Atualizado(id, c, old(db.clientes)[id], encode)
    ensures r.Ok? ==> db.clientes == old(db.clientes)[id := r.value]
  {
    var existente := BuscarCliente(db, id);
    if existente.Err? {
      return Err(existente.error);
    }
    var salvo := Atualizado(id, c, existente.value, encode);
    db.clientes := db.clientes[id := salvo];
    return Ok(salvo);
  }

  /** Some lease references the client: its NOT NULL `cliente_id` and the uncascaded `Cliente.alugueis` block the delete. */
  predicate PossuiAlugueis(alugueis: map<int, Aluguel>, clienteId: int)
  {
    exists k :: k in alugueis && alugueis[k].clienteId == clienteId
  }

  /** `excluir`: the lookup, then `delete`, which the database refuses while a lease references the client. */
  method Excluir(db: Db, id: int) returns (r: Result<(), Failure>)
    requires db.Valid()
    modifies db`clientes
    ensures db.Valid()
    ensures r.Ok? <==> id in old(db.clientes) && !PossuiAlugueis(db.alugueis, id)
    ensures id !in old(db.clientes) ==> r == Err(NotFound("Cliente não encontrado"))
    ensures id in old(db.clientes) && PossuiAlugueis(db.alugueis, id) ==> r == Err(Unexpected(MSG_RESTRICAO))
    ensures r.Err? ==> db.clientes == old(db.clientes)
    ensures r.Ok? ==> db.clientes == old(db.clientes) - {id}
  {
    var existente := BuscarCliente(db, id);
    if existente.Err? {
      return Err(existente.error);
    }
    if PossuiAlugueis(db.alugueis, id) {
      return Err(Unexpected(MSG_RESTRICAO));
    }
    db.clientes := db.clientes - {id};
    return Ok(());
  }

  /** A registered client's e-mail is taken: registering it again is refused. */
  lemma CadastradoOcupaEmail(db: Db, k: int)
    requires k in db.clientes
    ensures EmailEmUso(db, db.clientes[k].usuario.email)
  {
  }
}
