/**
 * The admin form that registers a property
 * (app/admin/dashboard/imoveis/cadastrar/components/CadastrarImovelForm.tsx):
 * its schema, its default values and its submit handler.
 *
 * The numeric fields keep the text typed; their `parseFloat`/`parseInt`
 * transforms are not part of this model.
 */
module ImovelForm {
  import opened Wrappers
  import opened FormState

  const TIPOS: seq<string> := ["CASA", "APARTAMENTO", "COMERCIAL"]
  const STATUS_IMOVEL: seq<string> := ["DISPONIVEL", "ALUGADO"]

  datatype Valores = Valores(titulo: string, descricao: string, tipo: string, endereco: string, valorMensal: string,
                             status: string, quartos: string, banheiros: string, area: string, garagem: string)

  /** A rejected field with its message; `None` where zod's own enum message is used. */
  datatype Problema = Problema(campo: string, mensagem: Option<string>)

  /** The problems of `formSchema`, in its field order. */
  function Problemas(v: Valores): (r: seq<Problema>)
    ensures r == [] <==>
              |v.titulo| >= 3 && |v.descricao| >= 10 && v.tipo in TIPOS && |v.endereco| >= 5 && v.status in STATUS_IMOVEL
    ensures v.tipo !in TIPOS ==> Problema("tipo", None) in r
    ensures v.status !in STATUS_IMOVEL ==> Problema("status", None) in r
  {
    (if |v.titulo| < 3 then [Problema("titulo", Some("O título deve ter pelo menos 3 caracteres"))] else [])
    + (if |v.descricao| < 10 then [Problema("descricao", Some("A descrição deve ter pelo menos 10 caracteres"))] else [])
    + (if v.tipo !in TIPOS then [Problema("tipo", None)] else [])
    + (if |v.endereco| < 5 then [Problema("endereco", Some("O endereço deve ter pelo menos 5 caracteres"))] else [])
    + (if v.status !in STATUS_IMOVEL then [Problema("status", None)] else [])
  }

  /** `formSchema.parse`, without the numeric transforms. */
  function Validar(v: Valores): (r: Result<Valores, seq<Problema>>)
    ensures r.Ok? <==> Problemas(v) == []
    ensures r.Ok? ==> r.value == v
    ensures r.Err? ==> r.error == Problemas(v) && r.error != []
  {
    var ps := Problemas(v);
    if ps == [] then Ok(v) else Err(ps)
  }

  /** `defaultValues`. */
  const PADRAO := Valores("", "", "CASA", "", "", "DISPONIVEL", "", "", "", "")

  /** The defaults pass both enums, but the empty texts fail their minimum lengths. */
  lemma PadraoSoFalhaNosTextos()
    ensures PADRAO.tipo in TIPOS && PADRAO.status in STATUS_IMOVEL
    ensures Problemas(PADRAO) ==
            [Problema("titulo", Some("O título deve ter pelo menos 3 caracteres")),
             Problema("descricao", Some("A descrição deve ter pelo menos 10 caracteres")),
             Problema("endereco", Some("O endereço deve ter pelo menos 5 caracteres"))]
  {
  }

  /** What `fetch("/api/imoveis/cadastrar", …)` gives back: a rejection, or a response and its `ok`. */
  datatype Resposta = Rejeitou | Respondeu(ok: bool)

  const MSG_SUCESSO := "Imóvel cadastrado com sucesso!"
  const MSG_ERRO := "Erro ao cadastrar imóvel"
  const ROTA_LISTA := "/admin/dashboard/imoveis"

  /** `onSubmit`: a response that is not OK is thrown and handled like a rejected request. */
  method OnSubmit(estado: EstadoEnvio, resposta: Resposta)
    modifies estado
    ensures !estado.loading
    ensures resposta == Respondeu(true) ==>
              estado.toasts == old(estado.toasts) + [ToastSucesso(MSG_SUCESSO)] && estado.rota == Some(ROTA_LISTA)
    ensures resposta != Respondeu(true) ==>
              estado.toasts == old(estado.toasts) + [ToastErro(MSG_ERRO)] && estado.rota == old(estado.rota)
  {
    estado.Iniciar();
    if resposta.Respondeu? && resposta.ok {
      estado.Avisar(ToastSucesso(MSG_SUCESSO));
      estado.Navegar(ROTA_LISTA);
    } else {
      estado.Avisar(ToastErro(MSG_ERRO));
    }
    estado.Concluir();
  }
}
