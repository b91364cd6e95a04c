/**
 * `ImovelService`: registering, finding, listing, updating and deleting
 * properties. `UUID.randomUUID()` is a parameter; the column's `unique`
 * constraint makes a save with a code already in the table fail.
 */
module ImovelService {
  import opened Wrappers
  import opened Entities
  import opened Database
  import opened Seqs

  const MSG_NAO_ENCONTRADO := "Imóvel não encontrado"
  const MSG_POSSUI_ALUGUEIS := "Não é possível excluir um imóvel que possui aluguéis"
  /** The database rejects a second row with the same `codigo`. */
  const MSG_CODIGO_DUPLICADO := "codigo duplicado"

  /** No two stored properties share a `codigo`. */
  predicate CodigosUnicos(imoveis: map<int, Imovel>)
  {
    forall j, k :: j in imoveis && k in imoveis && imoveis[j].codigo == imoveis[k].codigo ==> j == k
  }

  predicate CodigoEmUso(imoveis: map<int, Imovel>, codigo: string)
  {
    exists k :: k in imoveis && imoveis[k].codigo == codigo
  }

  /** `cadastrar`. */
  method Cadastrar(db: Db, imovel: Imovel, administradorId: int, uuid: string) returns (r: Result<Imovel, Failure>)
    requires db.Valid()
    modifies db`imoveis, db`nextId
    ensures db.Valid()
    ensures CodigosUnicos(old(db.imoveis)) ==> CodigosUnicos(db.imoveis)
    ensures administradorId !in old(db.administradores) ==> r == Err(NotFound("Administrador não encontrado"))
    ensures administradorId in old(db.administradores) && CodigoEmUso(old(db.imoveis), uuid) ==> r == Err(Unexpected(MSG_CODIGO_DUPLICADO))
    ensures r.Ok? <==> administradorId in old(db.administradores) && !CodigoEmUso(old(db.imoveis), uuid)
    ensures r.Err? ==> db.imoveis == old(db.imoveis) && db.nextId == old(db.nextId)
    ensures r.Ok? ==> r.value == imovel.(id := old(db.nextId), codigo := uuid, administradorId := administradorId)
    ensures r.Ok? ==> db.imoveis == old(db.imoveis)[r.value.id := r.value] && db.nextId == old(db.nextId) + 1
  {
    var administrador := BuscarAdministrador(db, administradorId);
    if administrador.Err? {
      return Err(administrador.error);
    }
    if CodigoEmUso(db.imoveis, uuid) {
      return Err(Unexpected(MSG_CODIGO_DUPLICADO));
    }
    var salvo := imovel.(id := db.nextId, codigo := uuid, administradorId := administradorId);
    db.imoveis := db.imoveis[salvo.id := salvo];
    db.nextId := db.nextId + 1;
    return Ok(salvo);
  }

  /** `buscarPorCodigo` (`findByCodigo`). */
  method BuscarPorCodigo(db: Db, codigo: string) returns (r: Result<Imovel, Failure>)
    requires db.Valid()
    ensures r.Ok? <==> CodigoEmUso(db.imoveis, codigo)
    ensures r.Ok? ==> r.value.id in db.imoveis && db.imoveis[r.value.id] == r.value && r.value.codigo == codigo
    ensures r.Err? ==> r.error == NotFound(MSG_NAO_ENCONTRADO)
  {
    var ids := set k | k in db.imoveis && db.imoveis[k].codigo == codigo;
    if ids == {} {
      assert forall k :: k in db.imoveis && db.imoveis[k].codigo == codigo ==> k in ids;
      return Err(NotFound(MSG_NAO_ENCONTRADO));
    }
    var k := Pick(ids);
    return Ok(db.imoveis[k]);
  }

  /** With unique codes, the code lookup finds the one property with that code. */
  lemma BuscarPorCodigoUnico(imoveis: map<int, Imovel>, k: int, j: int)
    requires CodigosUnicos(imoveis)
    requires k in imoveis && j in imoveis && imoveis[j].codigo == imoveis[k].codigo
    ensures j == k
  {
  }

  /** The rows of `imoveis` satisfying `keep`; a repository `findBy...` query. */
  function Onde(imoveis: map<int, Imovel>, keep: Imovel -> bool): (r: map<int, Imovel>)
    ensures forall k :: k in r <==> k in imoveis && keep(imoveis[k])
    ensures forall k :: k in r ==> r[k] == imoveis[k]
  {
    map k | k in imoveis && keep(imoveis[k]) :: imoveis[k]
  }

  /** `listarPorAdministrador`: the administrator must exist. */
  function ListarPorAdministrador(db: Db, administradorId: int): (r: Result<map<int, Imovel>, Failure>)
    reads db
    ensures r.Err? <==> administradorId !in db.administradores
    ensures r.Err? ==> r.error == NotFound("Administrador não encontrado")
    ensures r.Ok? ==> forall k :: k in r.value <==> k in db.imoveis && db.imoveis[k].administradorId == administradorId
    ensures r.Ok? ==> forall k :: k in r.value ==> r.value[k] == db.imoveis[k]
  {
    var administrador := BuscarAdministrador(db, administradorId);
    if administrador.Err? then Err(administrador.error)
    else Ok(Onde(db.imoveis, (i: Imovel) => i.administradorId == administradorId))
  }

  /** `listarPorStatus`. */
  function ListarPorStatus(imoveis: map<int, Imovel>, status: string): (r: map<int, Imovel>)
    ensures forall k :: k in r <==> k in imoveis && imoveis[k].status == status
    ensures forall k :: k in r ==> r[k] == imoveis[k]
  {
    Onde(imoveis, (i: Imovel) => i.status == status)
  }

  /** `listarPorTipo`. */
  function ListarPorTipo(imoveis: map<int, Imovel>, tipo: string): (r: map<int, Imovel>)
    ensures forall k :: k in r <==> k in imoveis && imoveis[k].tipo == tipo
    ensures forall k :: k in r ==> r[k] == imoveis[k]
  {
    Onde(imoveis, (i: Imovel) => i.tipo == tipo)
  }

  /** `listarPorValorMaximo`: inclusive bound. */
  function ListarPorValorMaximo(imoveis: map<int, Imovel>, valor: int): (r: map<int, Imovel>)
    ensures forall k :: k in r <==> k in imoveis && imoveis[k].valorMensal <= valor
    ensures forall k :: k in r ==> r[k] == imoveis[k]
  {
    Onde(imoveis, (i: Imovel) => i.valorMensal <= valor)
  }

  /** Raising the maximum value never drops a property from the listing. */
  lemma ValorMaximoMonotono(imoveis: map<int, Imovel>, v: int, w: int)
    requires v <= w
    ensures ListarPorValorMaximo(imoveis, v).Keys <= ListarPorValorMaximo(imoveis, w).Keys
  {
  }

  /** The row both update paths save: the request's fields with the stored id, code and administrator. */
  function Atualizado(imovel: Imovel, existente: Imovel): (r: Imovel)
    ensures r.id == existente.id && r.codigo == existente.codigo && r.administradorId == existente.administradorId
    ensures r.nome == imovel.nome && r.endereco == imovel.endereco && r.descricao == imovel.descricao
    ensures r.valorMensal == imovel.valorMensal && r.status == imovel.status && r.tipo == imovel.tipo
    ensures r.fotos == imovel.fotos
  {
    imovel.(id := existente.id, codigo := existente.codigo, administradorId := existente.administradorId)
  }

  /** Updating twice with the same request gives the same row as updating once. */
  lemma AtualizadoIdempotente(imovel: Imovel, existente: Imovel)
    ensures Atualizado(imovel, Atualizado(imovel, existente)) == Atualizado(imovel, existente)
  {
  }

  /** The codes are unchanged when one row keeps its code. */
  lemma MesmoCodigoPreservaUnicidade(imoveis: map<int, Imovel>, id: int, novo: Imovel)
    requires CodigosUnicos(imoveis) && id in imoveis && novo.codigo == imoveis[id].codigo
    ensures CodigosUnicos(imoveis[id := novo])
  {
    var m := imoveis[id := novo];
    forall j, k | j in m && k in m && m[j].codigo == m[k].codigo
      ensures j == k
    {
      var cj := if j == id then imoveis[id].codigo else imoveis[j].codigo;
      var ck := if k == id then imoveis[id].codigo else imoveis[k].codigo;
      assert m[j].codigo == cj && m[k].codigo == ck;
    }
  }

  /** Saves `existente`'s row updated from `imovel`. */
  method SalvarAtualizado(db: Db, imovel: Imovel, existente: Imovel) returns (salvo: Imovel)
    requires db.Valid() && existente.id in db.imoveis && db.imoveis[existente.id] == existente
    modifies db`imoveis
    ensures db.Valid()
    ensures CodigosUnicos(old(db.imoveis)) ==> CodigosUnicos(db.imoveis)
    ensures salvo == Atualizado(imovel, existente)
    ensures db.imoveis == old(db.imoveis)[existente.id := salvo]
  {
    salvo := Atualizado(imovel, existente);
    if CodigosUnicos(db.imoveis) {
      MesmoCodigoPreservaUnicidade(db.imoveis, existente.id, salvo);
    }
    db.imoveis := db.imoveis[existente.id := salvo];
  }

  /** `atualizar`. */
  method Atualizar(db: Db, id: int, imovel: Imovel) returns (r: Result<Imovel, Failure>)
    requires db.Valid()
    modifies db`imoveis
    ensures db.Valid()
    ensures CodigosUnicos(old(db.imoveis)) ==> CodigosUnicos(db.imoveis)
    ensures r.Ok? <==> id in old(db.imoveis)
    ensures r.Err? ==> r.error == NotFound(MSG_NAO_ENCONTRADO) && db.imoveis == old(db.imoveis)
    ensures r.Ok? ==> r.value == Atualizado(imovel, old(db.imoveis)[id])
    ensures r.Ok? ==> db.imoveis == old(db.imoveis)[id := r.value]
  {
    var existente := BuscarImovel(db, id);
    if existente.Err? {
      return Err(existente.error);
    }
    var salvo := SalvarAtualizado(db, imovel, existente.value);
    return Ok(salvo);
  }

  /** `atualizarPorCodigo`: the same update, addressed by code. */
  method AtualizarPorCodigo(db: Db, codigo: string, imovel: Imovel) returns (r: Result<Imovel, Failure>)
    requires db.Valid()
    modifies db`imoveis
    ensures db.Valid()
    ensures CodigosUnicos(old(db.imoveis)) ==> CodigosUnicos(db.imoveis)
    ensures r.Ok? <==> old(CodigoEmUso(db.imoveis, codigo))
    ensures r.Err? ==> r.error == NotFound(MSG_NAO_ENCONTRADO) && db.imoveis == old(db.imoveis)
    ensures r.Ok? ==> r.value.id in old(db.imoveis) && old(db.imoveis)[r.value.id].codigo == codigo
    ensures r.Ok? ==> r.value == Atualizado(imovel, old(db.imoveis)[r.value.id]) && r.value.codigo == codigo
    ensures r.Ok? ==> db.imoveis == old(db.imoveis)[r.value.id := r.value]
  {
    var existente := BuscarPorCodigo(db, codigo);
    if existente.Err? {
      return Err(existente.error);
    }
    var salvo := SalvarAtualizado(db, imovel, existente.value);
    return Ok(salvo);
  }

  /** `atualizarStatus`: only the status column changes. */
  method AtualizarStatus(db: Db, id: int, status: string) returns (r: Result<Imovel, Failure>)
    requires db.Valid()
    modifies db`imoveis
    ensures db.Valid()
    ensures CodigosUnicos(old(db.imoveis)) ==> CodigosUnicos(db.imoveis)
    ensures r.Ok? <==> id in old(db.imoveis)
    ensures r.Err? ==> r.error == NotFound(MSG_NAO_ENCONTRADO) && db.imoveis == old(db.imoveis)
    ensures r.Ok? ==> r.value == old(db.imoveis)[id].(status := status)
    ensures r.Ok? ==> db.imoveis == old(db.imoveis)[id := r.value]
  {
    var existente := BuscarImovel(db, id);
    if existente.Err? {
      return Err(existente.error);
    }
    var salvo := existente.value.(status := status);
    if CodigosUnicos(db.imoveis) {
      MesmoCodigoPreservaUnicidade(db.imoveis, id, salvo);
    }
    db.imoveis := db.imoveis[id := salvo];
    return Ok(salvo);
  }

  /** `imovel.getAlugueis()`: the leases that reference the property. */
  predicate PossuiAlugueis(alugueis: map<int, Aluguel>, imovelId: int)
  {
    exists k :: k in alugueis && alugueis[k].imovelId == imovelId
  }

  /** `excluir`. */
  method Excluir(db: Db, id: int) returns (r: Result<(), Failure>)
    requires db.Valid()
    modifies db`imoveis
    ensures db.Valid()
    ensures CodigosUnicos(old(db.imoveis)) ==> CodigosUnicos(db.imoveis)
    ensures id !in old(db.imoveis) ==> r == Err(NotFound(MSG_NAO_ENCONTRADO))
    ensures id in old(db.imoveis) && PossuiAlugueis(db.alugueis, id) ==> r == Err(Business(MSG_POSSUI_ALUGUEIS))
    ensures r.Ok? <==> id in old(db.imoveis) && !PossuiAlugueis(db.alugueis, id)
    ensures r.Err? ==> db.imoveis == old(db.imoveis)
    ensures r.Ok? ==> db.imoveis == old(db.imoveis) - {id}
  {
    var imovel := BuscarImovel(db, id);
    if imovel.Err? {
      return Err(imovel.error);
    }
    if PossuiAlugueis(db.alugueis, id) {
      return Err(Business(MSG_POSSUI_ALUGUEIS));
    }
    db.imoveis := db.imoveis - {id};
    return Ok(());
  }

  /** `excluirPorCodigo`: the photo list is cleared and saved, then the row is deleted. */
  method ExcluirPorCodigo(db: Db, codigo: string) returns (r: Result<(), Failure>)
    requires db.Valid()
    modifies db`imoveis
    ensures db.Valid()
    ensures CodigosUnicos(old(db.imoveis)) ==> CodigosUnicos(db.imoveis)
    ensures !old(CodigoEmUso(db.imoveis, codigo)) ==> r == Err(NotFound(MSG_NAO_ENCONTRADO))
    ensures r.Err? ==> db.imoveis == old(db.imoveis)
    ensures r.Err? && old(CodigoEmUso(db.imoveis, codigo)) ==> r == Err(Business(MSG_POSSUI_ALUGUEIS))
    ensures r.Ok? ==> exists id :: id in old(db.imoveis) && old(db.imoveis)[id].codigo == codigo
                        && !PossuiAlugueis(db.alugueis, id) && db.imoveis == old(db.imoveis) - {id}
    ensures CodigosUnicos(old(db.imoveis)) ==>
              (r.Ok? <==> old(CodigoEmUso(db.imoveis, codigo))
                            && forall id :: id in old(db.imoveis) && old(db.imoveis)[id].codigo == codigo ==> !PossuiAlugueis(db.alugueis, id))
                && (r.Ok? ==> !CodigoEmUso(db.imoveis, codigo))
  {
    var imovel := BuscarPorCodigo(db, codigo);
    if imovel.Err? {
      return Err(imovel.error);
    }
    var id := imovel.value.id;
    if PossuiAlugueis(db.alugueis, id) {
      return Err(Business(MSG_POSSUI_ALUGUEIS));
    }
    var semFotos := imovel.value.(fotos := []);
    if CodigosUnicos(db.imoveis) {
      MesmoCodigoPreservaUnicidade(db.imoveis, id, semFotos);
    }
    db.imoveis := db.imoveis[id := semFotos];
    db.imoveis := db.imoveis - {id};
    assert db.imoveis == old(db.imoveis) - {id};
    return Ok(());
  }
}
