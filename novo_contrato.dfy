/**
 * The page that creates a lease (app/admin/dashboard/contratos/novo/page.tsx):
 * the form record, its change handlers, the ordered checks of `handleSubmit`
 * and the loading and error screens.
 *
 * `Number(...)` is the parameter `toNumber`, with `None` for NaN; an id that
 * is `undefined` or NaN is `None`, and both are falsy. Today's date and the
 * date a year later come in as strings.
 */
module NovoContrato {
  import opened Wrappers
  import opened FrontTypes
  import opened FormState

  /** `formData`, a `Partial<ContratoDTO>` with the page's extra fields. */
  datatype FormContrato = FormContrato(
    clienteId: Option<int>, imovelId: Option<int>, dataInicio: string, dataFim: string,
    valorMensal: Option<int>, diaPagamento: Option<int>, taxaAdministracao: Option<int>,
    valorDeposito: Option<int>, observacoes: string)

  /** The initial `formData`. */
  function Inicial(hoje: string, daquiAUmAno: string): (r: FormContrato)
    ensures r.clienteId.None? && r.imovelId.None?
    ensures r.dataInicio == hoje && r.dataFim == daquiAUmAno
    ensures r.valorMensal == Some(0) && r.diaPagamento == Some(5) && r.taxaAdministracao == Some(10)
    ensures r.valorDeposito == Some(0) && r.observacoes == ""
  {
    FormContrato(None, None, hoje, daquiAUmAno, Some(0), Some(5), Some(10), Some(0), "")
  }

  /** `imoveis.find(i => i.id === n)`; NaN equals nothing. */
  function Encontrar(imoveis: seq<ImovelView>, n: Option<int>): (r: Option<ImovelView>)
    ensures r.Some? <==> n.Some? && exists k :: 0 <= k < |imoveis| && imoveis[k].id == n.value
    ensures r.Some? ==> r.value in imoveis && r.value.id == n.value
    ensures r.Some? ==> exists k :: 0 <= k < |imoveis| && imoveis[k] == r.value && forall j :: 0 <= j < k ==> imoveis[j].id != n.value
  {
    if n.None? || imoveis == [] then None
    else if imoveis[0].id == n.value then Some(imoveis[0])
    else
      var r := Encontrar(imoveis[1..], n);
      assert forall k :: 0 <= k < |imoveis| - 1 ==> imoveis[1..][k] == imoveis[k + 1];
      assert r.Some? ==> exists k :: 0 < k < |imoveis| && imoveis[k] == r.value && forall j :: 0 <= j < k ==> imoveis[j].id != n.value by {
        if r.Some? {
          var k :| 0 <= k < |imoveis| - 1 && imoveis[1..][k] == r.value && forall j :: 0 <= j < k ==> imoveis[1..][j].id != n.value;
          assert forall j :: 0 <= j < k + 1 ==> imoveis[j].id != n.value by {
            forall j | 0 < j < k + 1 ensures imoveis[j].id != n.value {
              assert imoveis[j] == imoveis[1..][j - 1];
            }
          }
        }
      }
      r
  }

  /** `handleImovelChange`: a listed property sets `imovelId` and copies its rent. */
  function ComImovel(f: FormContrato, imoveis: seq<ImovelView>, imovelId: string, toNumber: string -> Option<int>): (r: FormContrato)
    ensures Encontrar(imoveis, toNumber(imovelId)).None? ==> r == f
    ensures Encontrar(imoveis, toNumber(imovelId)).Some? ==>
              r == f.(imovelId := toNumber(imovelId), valorMensal := Some(Encontrar(imoveis, toNumber(imovelId)).value.valorMensal))
  {
    var imovel := Encontrar(imoveis, toNumber(imovelId));
    if imovel.Some? then f.(imovelId := toNumber(imovelId), valorMensal := Some(imovel.value.valorMensal)) else f
  }

  /** The inputs wired to `handleInputChange`, named by their `name` attribute. */
  datatype Campo = DataInicio | DataFim | ValorMensal | TaxaAdministracao | ValorDeposito | DiaPagamento | Observacoes

  predicate Numerico(c: Campo)
  {
    c == ValorMensal || c == TaxaAdministracao || c == ValorDeposito || c == DiaPagamento
  }

  /** What a field holds, as text or as a number. */
  datatype Valor = Texto(s: string) | Numero(n: Option<int>)

  function Ler(f: FormContrato, c: Campo): Valor
  {
    match c
    case DataInicio => Texto(f.dataInicio)
    case DataFim => Texto(f.dataFim)
    case ValorMensal => Numero(f.valorMensal)
    case TaxaAdministracao => Numero(f.taxaAdministracao)
    case ValorDeposito => Numero(f.valorDeposito)
    case DiaPagamento => Numero(f.diaPagamento)
    case Observacoes => Texto(f.observacoes)
  }

  /** `handleInputChange`: the named field gets the value, through `Number` for the four numeric ones. */
  function ComCampo(f: FormContrato, c: Campo, value: string, toNumber: string -> Option<int>): (r: FormContrato)
    ensures Ler(r, c) == if Numerico(c) then Numero(toNumber(value)) else Texto(value)
    ensures forall o :: o != c ==> Ler(r, o) == Ler(f, o)
    ensures r.clienteId == f.clienteId && r.imovelId == f.imovelId
  {
    match c
    case DataInicio => f.(dataInicio := value)
    case DataFim => f.(dataFim := value)
    case ValorMensal => f.(valorMensal := toNumber(value))
    case TaxaAdministracao => f.(taxaAdministracao := toNumber(value))
    case ValorDeposito => f.(valorDeposito := toNumber(value))
    case DiaPagamento => f.(diaPagamento := toNumber(value))
    case Observacoes => f.(observacoes := value)
  }

  /** Two records that agree on every field and on both ids are equal. */
  lemma MesmosCampos(f: FormContrato, g: FormContrato)
    requires forall o :: Ler(f, o) == Ler(g, o)
    requires f.clienteId == g.clienteId && f.imovelId == g.imovelId
    ensures f == g
  {
    assert Ler(f, DataInicio) == Ler(g, DataInicio);
    assert Ler(f, DataFim) == Ler(g, DataFim);
    assert Ler(f, ValorMensal) == Ler(g, ValorMensal);
    assert Ler(f, TaxaAdministracao) == Ler(g, TaxaAdministracao);
    assert Ler(f, ValorDeposito) == Ler(g, ValorDeposito);
    assert Ler(f, DiaPagamento) == Ler(g, DiaPagamento);
    assert Ler(f, Observacoes) == Ler(g, Observacoes);
  }

  /** Typing the value a field already holds changes nothing. */
  lemma ComCampoSemMudanca(f: FormContrato, c: Campo, value: string, toNumber: string -> Option<int>)
    requires Ler(f, c) == if Numerico(c) then Numero(toNumber(value)) else Texto(value)
    ensures ComCampo(f, c, value, toNumber) == f
  {
    MesmosCampos(ComCampo(f, c, value, toNumber), f);
  }

  /** `!clienteId || !imovelId || !dataInicio || !dataFim`: id 0 and NaN are falsy too. */
  predicate FaltaObrigatorio(f: FormContrato)
  {
    f.clienteId.None? || f.clienteId == Some(0) || f.imovelId.None? || f.imovelId == Some(0)
    || f.dataInicio == "" || f.dataFim == ""
  }

  /** The body sent to `ContratosService.criar`: the form with status 'ATIVO'. */
  datatype CorpoContrato = CorpoContrato(form: FormContrato, status: string)

  const MSG_OBRIGATORIOS := "Por favor, preencha todos os campos obrigatórios"
  const MSG_INDISPONIVEL := "Imóvel não está disponível no período selecionado"
  const MSG_ERRO_DISPONIBILIDADE := "Erro ao verificar disponibilidade do imóvel"
  const MSG_SUCESSO := "Contrato criado com sucesso!"
  const MSG_ERRO_CRIAR := "Erro ao criar contrato"
  const ROTA_LISTA := "/admin/dashboard/contratos"

  /** The page state: the form record and the submit state. */
  class NovoContratoPage {
    var formData: FormContrato
    const estado: EstadoEnvio

    constructor (hoje: string, daquiAUmAno: string)
      ensures formData == Inicial(hoje, daquiAUmAno)
      ensures fresh(estado) && !estado.loading && estado.toasts == [] && estado.rota == None
    {
      formData := Inicial(hoje, daquiAUmAno);
      estado := new EstadoEnvio();
    }

    /** The client select: `clienteId: Number(value)`. */
    method SelecionarCliente(value: string, toNumber: string -> Option<int>)
      modifies this`formData
      ensures formData == old(formData).(clienteId := toNumber(value))
    {
      formData := formData.(clienteId := toNumber(value));
    }

    method HandleImovelChange(imoveis: seq<ImovelView>, imovelId: string, toNumber: string -> Option<int>)
      modifies this`formData
      ensures formData == ComImovel(old(formData), imoveis, imovelId, toNumber)
    {
      formData := ComImovel(formData, imoveis, imovelId, toNumber);
    }

    method HandleInputChange(c: Campo, value: string, toNumber: string -> Option<int>)
      modifies this`formData
      ensures formData == ComCampo(old(formData), c, value, toNumber)
    {
      formData := ComCampo(formData, c, value, toNumber);
    }

    /**
     * `handleSubmit`, given what `verificarDisponibilidade` would answer (the
     * flag, or the message it throws) and what `criar` would answer (`Ok`, or
     * the server's message if any). Returns the body sent to `criar`.
     */
    method HandleSubmit(disponibilidade: Result<bool, string>, criacao: Result<(), Option<string>>)
      returns (criado: Option<CorpoContrato>)
      modifies estado
      ensures !estado.loading
      ensures criado.Some? <==> !FaltaObrigatorio(formData) && disponibilidade == Ok(true)
      ensures criado.Some? ==> criado.value == CorpoContrato(formData, ATIVO)
      ensures FaltaObrigatorio(formData) ==>
                estado.toasts == old(estado.toasts) + [ToastErro(MSG_OBRIGATORIOS)] && estado.rota == old(estado.rota)
      ensures !FaltaObrigatorio(formData) && disponibilidade == Ok(false) ==>
                estado.toasts == old(estado.toasts) + [ToastErro(MSG_INDISPONIVEL)] && estado.rota == old(estado.rota)
      ensures !FaltaObrigatorio(formData) && disponibilidade.Err? ==>
                estado.toasts == old(estado.toasts) + [ToastErro(MensagemOu(Some(disponibilidade.error), MSG_ERRO_DISPONIBILIDADE))]
                && estado.rota == old(estado.rota)
      ensures criado.Some? && criacao.Ok? ==>
                estado.toasts == old(estado.toasts) + [ToastSucesso(MSG_SUCESSO)] && estado.rota == Some(ROTA_LISTA)
      ensures criado.Some? && criacao.Err? ==>
                estado.toasts == old(estado.toasts) + [ToastErro(MensagemOu(criacao.error, MSG_ERRO_CRIAR))]
                && estado.rota == old(estado.rota)
    {
      estado.Iniciar();
      criado := None;
      if FaltaObrigatorio(formData) {
        estado.Avisar(ToastErro(MSG_OBRIGATORIOS));
      } else if disponibilidade.Err? {
        estado.Avisar(ToastErro(MensagemOu(Some(disponibilidade.error), MSG_ERRO_DISPONIBILIDADE)));
      } else if !disponibilidade.value {
        estado.Avisar(ToastErro(MSG_INDISPONIVEL));
      } else {
        criado := Some(CorpoContrato(formData, ATIVO));
        if criacao.Ok? {
          estado.Avisar(ToastSucesso(MSG_SUCESSO));
          estado.Navegar(ROTA_LISTA);
        } else {
          estado.Avisar(ToastErro(MensagemOu(criacao.error, MSG_ERRO_CRIAR)));
        }
      }
      estado.Concluir();
    }
  }

  /** The initial form has no client yet, so submitting it at once is refused. */
  lemma InicialIncompleto(hoje: string, daquiAUmAno: string)
    ensures FaltaObrigatorio(Inicial(hoje, daquiAUmAno))
  {
  }

  /** Id 0 counts as missing, even for a property listed with id 0. */
  lemma IdZeroRecusado(f: FormContrato, imoveis: seq<ImovelView>, imovelId: string, toNumber: string -> Option<int>)
    requires toNumber(imovelId) == Some(0)
    requires exists k :: 0 <= k < |imoveis| && imoveis[k].id == 0
    ensures ComImovel(f, imoveis, imovelId, toNumber).imovelId == Some(0)
    ensures FaltaObrigatorio(ComImovel(f, imoveis, imovelId, toNumber))
  {
  }

  /** The screens of the page: the lists' loading and errors come before the form. */
  datatype Tela = Carregando | ErroAoCarregar | Formulario

  function Renderizar(loadingClientes: bool, loadingImoveis: bool, errorClientes: bool, errorImoveis: bool): (r: Tela)
    ensures r == Formulario <==> !loadingClientes && !loadingImoveis && !errorClientes && !errorImoveis
    ensures r == Carregando <==> loadingClientes || loadingImoveis
    ensures r == ErroAoCarregar ==> errorClientes || errorImoveis
  {
    if loadingClientes || loadingImoveis then Carregando
    else if errorClientes || errorImoveis then ErroAoCarregar
    else Formulario
  }
}
