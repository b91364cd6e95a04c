/**
 * The JPA repositories, as in-memory tables from id to row, and the
 * `findById(...).orElseThrow(...)` lookups every service starts from.
 *
 * The database assigns ids (`GenerationType.IDENTITY`); the model draws them
 * from one counter shared by all tables, so a new row's id is always fresh.
 */
module Database {
  import opened Wrappers
  import opened Entities

  /**
   * What a delete the database refuses on a foreign key throws. The driver's
   * own text is not part of this model; the 500 handler hides it anyway.
   */
  const MSG_RESTRICAO := "could not execute statement"

  class Db {
    var imoveis: map<int, Imovel>
    var alugueis: map<int, Aluguel>
    var pagamentos: map<int, Pagamento>
    var clientes: map<int, Cliente>
    var administradores: map<int, Usuario>
    var proprietarios: map<int, Usuario>
    var historicos: map<int, Historico>
    var nextId: int

    /** Every row is stored under its own id, and every id is below the counter. */
    ghost predicate Valid()
      reads this
    {
      TabelasValidas(imoveis, alugueis, pagamentos, clientes, administradores, proprietarios, historicos, nextId)
    }

    constructor ()
      ensures Valid()
      ensures imoveis == map[] && alugueis == map[] && pagamentos == map[] && clientes == map[]
      ensures administradores == map[] && proprietarios == map[] && historicos == map[]
    {
      imoveis, alugueis, pagamentos, clientes := map[], map[], map[], map[];
      administradores, proprietarios, historicos := map[], map[], map[];
      nextId := 1;
    }
  }

  /** `Db.Valid` on the values of the tables. */
  ghost predicate TabelasValidas(imoveis: map<int, Imovel>, alugueis: map<int, Aluguel>, pagamentos: map<int, Pagamento>,
                                 clientes: map<int, Cliente>, administradores: map<int, Usuario>,
                                 proprietarios: map<int, Usuario>, historicos: map<int, Historico>, nextId: int)
  {
    && (forall k :: k in imoveis ==> k < nextId && imoveis[k].id == k)
    && (forall k :: k in alugueis ==> k < nextId && alugueis[k].id == k)
    && (forall k :: k in pagamentos ==> k < nextId && pagamentos[k].id == Some(k))
    && (forall k :: k in clientes ==> k < nextId && clientes[k].usuario.id == k)
    && (forall k :: k in administradores ==> k < nextId && administradores[k].id == k)
    && (forall k :: k in proprietarios ==> k < nextId && proprietarios[k].id == k)
    && (forall k :: k in historicos ==> k < nextId && historicos[k].id == k && historicos[k].clienteId < nextId)
  }

  /** `UsuarioService.existeEmail`: the users table holds every user type. */
  predicate EmailEmUso(db: Db, email: string)
    reads db
  {
    || (exists k :: k in db.clientes && db.clientes[k].usuario.email == email)
    || (exists k :: k in db.administradores && db.administradores[k].email == email)
    || (exists k :: k in db.proprietarios && db.proprietarios[k].email == email)
  }

  /** `ClienteService.buscarPorId`. */
  function BuscarCliente(db: Db, id: int): (r: Result<Cliente, Failure>)
    reads db
    ensures r.Ok? <==> id in db.clientes
    ensures r.Ok? ==> r.value == db.clientes[id]
    ensures r.Err? ==> r.error == NotFound("Cliente não encontrado")
  {
    if id in db.clientes then Ok(db.clientes[id]) else Err(NotFound("Cliente não encontrado"))
  }

  /** `ImovelService.buscarPorId`. */
  function BuscarImovel(db: Db, id: int): (r: Result<Imovel, Failure>)
    reads db
    ensures r.Ok? <==> id in db.imoveis
    ensures r.Ok? ==> r.value == db.imoveis[id]
    ensures r.Err? ==> r.error == NotFound("Imóvel não encontrado")
  {
    if id in db.imoveis then Ok(db.imoveis[id]) else Err(NotFound("Imóvel não encontrado"))
  }

  /** `AluguelService.buscarPorId`. */
  function BuscarAluguel(db: Db, id: int): (r: Result<Aluguel, Failure>)
    reads db
    ensures r.Ok? <==> id in db.alugueis
    ensures r.Ok? ==> r.value == db.alugueis[id]
    ensures r.Err? ==> r.error == NotFound("Aluguel não encontrado")
  {
    if id in db.alugueis then Ok(db.alugueis[id]) else Err(NotFound("Aluguel não encontrado"))
  }

  /** `PagamentoService.buscarPorId`. */
  function BuscarPagamento(db: Db, id: int): (r: Result<Pagamento, Failure>)
    reads db
    ensures r.Ok? <==> id in db.pagamentos
    ensures r.Ok? ==> r.value == db.pagamentos[id]
    ensures r.Err? ==> r.error == NotFound("Pagamento não encontrado")
  {
    if id in db.pagamentos then Ok(db.pagamentos[id]) else Err(NotFound("Pagamento não encontrado"))
  }

  /** `AdministradorService.buscarPorId`. */
  function BuscarAdministrador(db: Db, id: int): (r: Result<Usuario, Failure>)
    reads db
    ensures r.Ok? <==> id in db.administradores
    ensures r.Ok? ==> r.value == db.administradores[id]
    ensures r.Err? ==> r.error == NotFound("Administrador não encontrado")
  {
    if id in db.administradores then Ok(db.administradores[id]) else Err(NotFound("Administrador não encontrado"))
  }

  /** `ProprietarioService.buscarPorId`. */
  function BuscarProprietario(db: Db, id: int): (r: Result<Usuario, Failure>)
    reads db
    ensures r.Ok? <==> id in db.proprietarios
    ensures r.Ok? ==> r.value == db.proprietarios[id]
    ensures r.Err? ==> r.error == NotFound("Proprietário não encontrado")
  {
    if id in db.proprietarios then Ok(db.proprietarios[id]) else Err(NotFound("Proprietário não encontrado"))
  }

  /**
   * `HistoricoPagamentoService.buscarPorCliente`: the client must exist, and so
   * must a history row for it.
   */
  method BuscarHistoricoDoCliente(db: Db, clienteId: int) returns (r: Result<Historico, Failure>)
    requires db.Valid()
    ensures clienteId !in db.clientes ==> r == Err(NotFound("Cliente não encontrado"))
    ensures clienteId in db.clientes && (forall k :: k in db.historicos ==> db.historicos[k].clienteId != clienteId)
            ==> r == Err(NotFound("Histórico de pagamento não encontrado para este cliente"))
    ensures r.Ok? ==> r.value.id in db.historicos && db.historicos[r.value.id] == r.value
    ensures r.Ok? ==> r.value.clienteId == clienteId && clienteId in db.clientes
    ensures r.Err? ==> r.error.NotFound?
  {
    if clienteId !in db.clientes {
      return Err(NotFound("Cliente não encontrado"));
    }
    if k :| k in db.historicos && db.historicos[k].clienteId == clienteId {
      return Ok(db.historicos[k]);
    }
    return Err(NotFound("Histórico de pagamento não encontrado para este cliente"));
  }
}
