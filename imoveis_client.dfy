/**
 * The front end's property client (services/imoveis.ts): `ensureArray`,
 * `normalizeImovel`, `getDefaultImovel`, the list and lookup functions, and
 * the `ImoveisService` object literal whose repeated keys make the later
 * `buscarPorCodigo` and `atualizar` the ones callers get.
 *
 * The API's response body is untyped JSON, so the functions work on a `Json`
 * value. The request itself is a parameter: either it failed (the `catch`
 * branch) or it returned a body.
 */
module ImoveisClient {
  import opened Wrappers
  import opened Seqs
  import opened FrontTypes

  /** A JSON value as JavaScript holds it; `JNull` stands for both `null` and `undefined`. */
  datatype Json = JNull | JBool(b: bool) | JNum(n: int) | JStr(s: string) | JArr(items: seq<Json>) | JObj(fields: map<string, Json>)

  /** JavaScript truthiness. */
  predicate Truthy(j: Json)
  {
    match j
    case JNull => false
    case JBool(b) => b
    case JNum(n) => n != 0
    case JStr(s) => s != ""
    case JArr(_) => true
    case JObj(_) => true
  }

  /** `data.k`: the member of an object, `undefined` for a missing member or a non-object. */
  function Field(j: Json, k: string): (r: Json)
    ensures j.JObj? && k in j.fields ==> r == j.fields[k]
    ensures !j.JObj? || k !in j.fields ==> r == JNull
  {
    if j.JObj? && k in j.fields then j.fields[k] else JNull
  }

  /** `a || b`. */
  function Or(a: Json, b: Json): (r: Json)
    ensures Truthy(a) ==> r == a
    ensures !Truthy(a) ==> r == b
  {
    if Truthy(a) then a else b
  }

  /** The nine members of the front end's `Imovel`. */
  const CAMPOS: set<string> := {"id", "codigo", "nome", "endereco", "descricao", "valorMensal", "status", "tipo", "administrador"}

  /** The value `normalizeImovel` puts in member `k` when the input's is falsy. */
  function Padrao(k: string): Json
  {
    if k == "id" || k == "valorMensal" then JNum(0)
    else if k == "status" then JStr("DISPONIVEL")
    else if k == "administrador" then JObj(map["id" := JNum(0), "nome" := JStr(""), "email" := JStr("")])
    else JStr("")
  }

  /** Member `k` of `getDefaultImovel()`. */
  function PadraoAusente(k: string): Json
  {
    if k == "nome" then JStr("Imóvel não encontrado")
    else if k == "endereco" then JStr("Endereço não informado")
    else if k == "descricao" then JStr("Sem descrição")
    else if k == "status" then JStr("INDEFINIDO")
    else if k == "tipo" then JStr("Não especificado")
    else if k == "administrador" then JObj(map["id" := JNum(0), "nome" := JStr("Não informado"), "email" := JStr("")])
    else Padrao(k)
  }

  /** `getDefaultImovel()`. */
  function DefaultImovel(): (r: Json)
    ensures r.JObj? && r.fields.Keys == CAMPOS
  {
    JObj(map k | k in CAMPOS :: PadraoAusente(k))
  }

  /** `normalizeImovel(data)`. */
  function NormalizeImovel(data: Json): (r: Json)
    ensures r.JObj? && r.fields.Keys == CAMPOS
    ensures !Truthy(data) ==> r == DefaultImovel()
    ensures Truthy(data) ==> forall k :: k in CAMPOS && Truthy(Field(data, k)) ==> r.fields[k] == Field(data, k)
    ensures Truthy(data) ==> forall k :: k in CAMPOS && !Truthy(Field(data, k)) ==> r.fields[k] == Padrao(k)
  {
    if !Truthy(data) then DefaultImovel()
    else
      JObj(map k | k in CAMPOS :: Or(Field(data, k), Padrao(k)))
  }

  /** The default record's status is 'INDEFINIDO', which no server record has. */
  lemma DefaultIndefinido()
    ensures DefaultImovel().fields["status"] == JStr("INDEFINIDO")
    ensures DefaultImovel().fields.Keys == CAMPOS
  {
  }

  lemma OrAbsorve(a: Json, b: Json)
    ensures Or(Or(a, b), b) == Or(a, b)
  {
  }

  /** The default record normalizes to itself: its falsy members are already the defaults. */
  lemma DefaultFixo()
    ensures NormalizeImovel(DefaultImovel()) == DefaultImovel()
  {
    var d := DefaultImovel();
    var r := NormalizeImovel(d);
    forall k | k in CAMPOS
      ensures r.fields[k] == d.fields[k]
    {
      assert Field(d, k) == PadraoAusente(k);
      PadraoAusenteFixo(k);
    }
    assert r.fields == d.fields;
  }

  /** Every member of the default record is truthy or already the value normalizing would put there. */
  lemma PadraoAusenteFixo(k: string)
    requires k in CAMPOS
    ensures Or(PadraoAusente(k), Padrao(k)) == PadraoAusente(k)
  {
    if k == "id" || k == "valorMensal" || k == "codigo" {
      assert PadraoAusente(k) == Padrao(k);
    } else {
      assert Truthy(PadraoAusente(k));
    }
  }

  /** Normalizing a normalized record changes nothing. */
  lemma NormalizeIdempotente(data: Json)
    ensures NormalizeImovel(NormalizeImovel(data)) == NormalizeImovel(data)
  {
    if !Truthy(data) {
      DefaultFixo();
    } else {
      var r := NormalizeImovel(data);
      var rr := NormalizeImovel(r);
      forall k | k in CAMPOS
        ensures rr.fields[k] == r.fields[k]
      {
        NormalizeMembroFixo(data, k);
      }
      assert rr.fields == r.fields;
    }
  }

  /** Normalizing twice leaves each member of a present record as the first pass put it. */
  lemma NormalizeMembroFixo(data: Json, k: string)
    requires Truthy(data) && k in CAMPOS
    ensures NormalizeImovel(NormalizeImovel(data)).fields[k] == NormalizeImovel(data).fields[k]
  {
    var r := NormalizeImovel(data);
    assert r.fields[k] == Or(Field(data, k), Padrao(k));
    assert Field(r, k) == r.fields[k];
    OrAbsorve(Field(data, k), Padrao(k));
  }

  /** Members outside `Imovel`, `fotos` among them, are dropped. */
  lemma NormalizeDescartaExtras(data: Json, k: string)
    requires k !in CAMPOS
    ensures k !in NormalizeImovel(data).fields
  {
  }

  /** Member `k` of a JSON object exists and has the JSON kind the `Imovel` interface declares for it. */
  predicate TemTipo(k: string, v: Json)
  {
    if k == "id" || k == "valorMensal" then v.JNum?
    else if k == "administrador" then
      v.JObj? && Field(v, "id").JNum? && Field(v, "nome").JStr? && Field(v, "email").JStr?
    else v.JStr?
  }

  /** A JSON object that is a well-formed front-end `Imovel`. */
  predicate Tipado(j: Json)
  {
    j.JObj? && CAMPOS <= j.fields.Keys && forall k :: k in CAMPOS ==> TemTipo(k, j.fields[k])
  }

  /** The typed record a well-formed object stands for. */
  function ComoImovel(j: Json): (r: ImovelView)
    requires Tipado(j)
    ensures r.codigo == j.fields["codigo"].s && r.status == j.fields["status"].s
  {
    var f := j.fields;
    var adm := f["administrador"];
    ImovelView(f["id"].n, f["codigo"].s, f["nome"].s, f["endereco"].s, f["descricao"].s,
               f["valorMensal"].n, f["status"].s, f["tipo"].s,
               Administrador(Field(adm, "id").n, Field(adm, "nome").s, Field(adm, "email").s))
  }

  /**
   * When every truthy member of the input has its declared kind, the
   * normalized record is a well-formed `Imovel`: the defaults fill the rest.
   */
  lemma NormalizeTipado(data: Json)
    requires forall k :: k in CAMPOS && Truthy(Field(data, k)) ==> TemTipo(k, Field(data, k))
    ensures Tipado(NormalizeImovel(data))
  {
    var r := NormalizeImovel(data);
    forall k | k in CAMPOS
      ensures TemTipo(k, r.fields[k])
    {
      if !Truthy(data) {
        PadraoAusenteTipado(k);
      } else if !Truthy(Field(data, k)) {
        PadraoTipado(k);
      }
    }
  }

  /** Every fallback of `normalizeImovel` has its member's declared kind. */
  lemma PadraoTipado(k: string)
    requires k in CAMPOS
    ensures TemTipo(k, Padrao(k))
  {
  }

  /** Every member of `getDefaultImovel()` has its declared kind. */
  lemma PadraoAusenteTipado(k: string)
    requires k in CAMPOS
    ensures TemTipo(k, DefaultImovel().fields[k])
  {
  }

  /** `ensureArray(data)`. */
  function EnsureArray(data: Json): (r: seq<Json>)
    ensures !Truthy(data) ==> r == []
    ensures data.JArr? ==> r == data.items
    ensures Truthy(data) && !data.JArr? ==> r == [data]
  {
    if !Truthy(data) then [] else if data.JArr? then data.items else [data]
  }

  /** The outcome of an `api` call: it threw, or it returned a body. */
  datatype Resposta = Falhou | Recebeu(data: Json)

  /**
   * `listarTodos`, and the identical `listarPorAdministrador`, `listarPorTipo`
   * and `listarPorValorMaximo`: an array body is normalized element by
   * element; anything else, and a failed request, give the empty list.
   */
  function Listar(resp: Resposta): (r: seq<Json>)
    ensures resp.Falhou? || !resp.data.JArr? ==> r == []
    ensures resp.Recebeu? && resp.data.JArr? ==>
              |r| == |resp.data.items| && forall i :: 0 <= i < |r| ==> r[i] == NormalizeImovel(resp.data.items[i])
  {
    if resp.Falhou? || !Truthy(resp.data) || !resp.data.JArr? then [] else Map(resp.data.items, NormalizeImovel)
  }

  /** `listarPorStatus` and `listarDisponiveis`: the body goes through `ensureArray` first. */
  function ListarPorStatus(resp: Resposta): (r: seq<Json>)
    ensures resp.Falhou? ==> r == []
    ensures resp.Recebeu? ==>
              |r| == |EnsureArray(resp.data)| &&
              forall i :: 0 <= i < |r| ==> r[i] == NormalizeImovel(EnsureArray(resp.data)[i])
  {
    if resp.Falhou? then [] else Map(EnsureArray(resp.data), NormalizeImovel)
  }

  /** Both kinds of list function agree on an array body; on a single object only `listarPorStatus` keeps it. */
  lemma ListasComparadas(resp: Resposta)
    ensures resp.Recebeu? && resp.data.JArr? ==> ListarPorStatus(resp) == Listar(resp)
    ensures resp.Recebeu? && resp.data.JObj? ==>
              Listar(resp) == [] && ListarPorStatus(resp) == [NormalizeImovel(resp.data)]
  {
  }

  /** Every record a list function returns has exactly the nine members. */
  lemma ListasCompletas(resp: Resposta)
    ensures forall i :: 0 <= i < |Listar(resp)| ==> Listar(resp)[i].JObj? && Listar(resp)[i].fields.Keys == CAMPOS
    ensures forall i :: 0 <= i < |ListarPorStatus(resp)| ==>
              ListarPorStatus(resp)[i].JObj? && ListarPorStatus(resp)[i].fields.Keys == CAMPOS
  {
  }

  /**
   * `buscarPorId`, and the `buscarPorCodigo` and `atualizar` that take
   * effect: the normalized body, or the default record when the request fails.
   */
  function Buscar(resp: Resposta): (r: Json)
    ensures resp.Falhou? ==> r == DefaultImovel()
    ensures resp.Recebeu? ==> r == NormalizeImovel(resp.data)
  {
    if resp.Falhou? then DefaultImovel() else NormalizeImovel(resp.data)
  }

  /** `cadastrar`: the normalized body, or the request's error thrown again. */
  function Cadastrar(resp: Resposta): (r: Result<Json, ()>)
    ensures r.Err? <==> resp.Falhou?
    ensures r.Ok? ==> r.value == NormalizeImovel(resp.data)
  {
    if resp.Falhou? then Err(()) else Ok(NormalizeImovel(resp.data))
  }

  /** The first, hidden `atualizar`: failures and a null body throw; otherwise the body with a defaulted `status`. */
  function AtualizarOculto(resp: Resposta): (r: Result<Json, ()>)
    ensures r.Err? <==> resp.Falhou? || resp.data == JNull
    ensures r.Ok? ==> r.value.JObj? && "status" in r.value.fields
    ensures r.Ok? ==> r.value.fields["status"] == Or(Field(resp.data, "status"), JStr("DISPONIVEL"))
  {
    if resp.Falhou? || resp.data == JNull then Err(())
    else
      var base := if resp.data.JObj? then resp.data.fields else map[];
      Ok(JObj(base["status" := Or(Field(resp.data, "status"), JStr("DISPONIVEL"))]))
  }

  /** The implementations the members of the `ImoveisService` literal are bound to. */
  datatype Implementacao =
    | BuscarPorCodigoDto | AtualizarDto | Excluir | ListarTodos | ListarPorAdministrador
    | ListarPorStatusImpl | ListarPorTipo | ListarPorValorMaximo | BuscarPorId
    | BuscarPorCodigoNormalizado | CadastrarImpl | AtualizarNormalizado | AtualizarStatus | ListarDisponiveis

  /** An object literal: members in source order, a repeated key bound by its last occurrence. */
  function Literal<V>(membros: seq<(string, V)>): (r: map<string, V>)
    ensures forall i :: 0 <= i < |membros| ==> membros[i].0 in r
    ensures forall k :: k in r ==> exists i :: 0 <= i < |membros| && membros[i].0 == k
  {
    if membros == [] then map[]
    else
      var init := membros[..|membros| - 1];
      assert forall i :: 0 <= i < |init| ==> init[i] == membros[i];
      var m := membros[|membros| - 1];
      Literal(init)[m.0 := m.1]
  }

  /** The member bound last to a key is the one the literal keeps. */
  lemma {:induction false} LiteralUltimoVence<V>(membros: seq<(string, V)>, i: nat)
    requires i < |membros|
    requires forall j :: i < j < |membros| ==> membros[j].0 != membros[i].0
    ensures Literal(membros)[membros[i].0] == membros[i].1
  {
    var init := membros[..|membros| - 1];
    if i < |membros| - 1 {
      assert forall j :: i < j < |init| ==> init[j] == membros[j];
      LiteralUltimoVence(init, i);
    }
  }

  /** The members of `ImoveisService`, as written. */
  function MembrosDoServico(): seq<(string, Implementacao)>
  {
    [("buscarPorCodigo", BuscarPorCodigoDto), ("atualizar", AtualizarDto), ("excluir", Excluir),
     ("listarTodos", ListarTodos), ("listarPorAdministrador", ListarPorAdministrador),
     ("listarPorStatus", ListarPorStatusImpl), ("listarPorTipo", ListarPorTipo),
     ("listarPorValorMaximo", ListarPorValorMaximo), ("buscarPorId", BuscarPorId),
     ("buscarPorCodigo", BuscarPorCodigoNormalizado), ("cadastrar", CadastrarImpl),
     ("atualizar", AtualizarNormalizado), ("atualizarStatus", AtualizarStatus),
     ("listarDisponiveis", ListarDisponiveis)]
  }

  /**
   * Callers of `ImoveisService.buscarPorCodigo` and `ImoveisService.atualizar`
   * get the later, normalizing versions, so a failed update yields the default
   * record instead of an exception.
   */
  lemma ServicoEfetivo()
    ensures "buscarPorCodigo" in Literal(MembrosDoServico()) && "atualizar" in Literal(MembrosDoServico())
    ensures Literal(MembrosDoServico())["buscarPorCodigo"] == BuscarPorCodigoNormalizado
    ensures Literal(MembrosDoServico())["atualizar"] == AtualizarNormalizado
  {
    BuscarPorCodigoEfetivo();
    AtualizarEfetivo();
  }

  /** No member after the second `buscarPorCodigo` has that key. */
  lemma BuscarPorCodigoEfetivo()
    ensures "buscarPorCodigo" in Literal(MembrosDoServico())
    ensures Literal(MembrosDoServico())["buscarPorCodigo"] == BuscarPorCodigoNormalizado
  {
    var ms := MembrosDoServico();
    var ks := ["cadastrar", "atualizar", "atualizarStatus", "listarDisponiveis"];
    assert forall j :: 9 < j < |ms| ==> ms[j].0 == ks[j - 10];
    assert "buscarPorCodigo" !in ks;
    LiteralUltimoVence(ms, 9);
  }

  /** No member after the second `atualizar` has that key. */
  lemma AtualizarEfetivo()
    ensures "atualizar" in Literal(MembrosDoServico())
    ensures Literal(MembrosDoServico())["atualizar"] == AtualizarNormalizado
  {
    var ms := MembrosDoServico();
    assert ms[12].0 == "atualizarStatus" && ms[13].0 == "listarDisponiveis";
    LiteralUltimoVence(ms, 11);
  }

  /** So a failed update yields the default record where the hidden version would throw. */
  lemma FalhaNaAtualizacao()
    ensures Buscar(Falhou) == DefaultImovel() && AtualizarOculto(Falhou).Err?
  {
  }
}
