/**
 * The Bean Validation constraints on the request DTOs, as the list of
 * (field, message) violations a request produces; an empty list means the
 * request is accepted. The list follows the declaration order of the
 * constraints; Bean Validation itself reports them in no fixed order.
 *
 * Absent or JSON-null fields are None. Money (`Double`) is whole cents.
 * `@Email` is a predicate passed in; like every constraint except `@NotNull`
 * and `@NotBlank`, it accepts a null value.
 */
module DtoValidation {
  import opened Wrappers
  import opened Dates
  import opened Entities
  import opened Text

  datatype Violacao = Violacao(campo: string, mensagem: string)

  /** `@NotBlank`: non-null, and something is left after `trim()`. */
  predicate NotBlank(v: Option<string>) { v.Some? && NotBlankText(v.value) }

  /** `@Pattern(regexp = "^\\d{lo,hi}$")`; null is accepted. */
  predicate DigitsPattern(v: Option<string>, lo: nat, hi: nat) { v.None? || (lo <= |v.value| <= hi && AllDigits(v.value)) }

  /** `@Email`, with the format check given; null is accepted. */
  predicate EmailOk(v: Option<string>, isEmail: string -> bool) { v.None? || isEmail(v.value) }

  /** The violation `v` if `ok` fails. */
  function Se(ok: bool, v: Violacao): (r: seq<Violacao>)
    ensures r == [] <==> ok
    ensures r == [] || r == [v]
  {
    if ok then [] else [v]
  }

  datatype ClienteDTO = ClienteDTO(
    id: Option<int>, nome: Option<string>, email: Option<string>, senha: Option<string>,
    cpf: Option<string>, telefone: Option<string>, endereco: Option<string>,
    dataNascimento: Option<LocalDate>, status: Option<string>)

  /** `ClienteDTO`'s constraints, in the order of its fields. */
  function ViolacoesCliente(d: ClienteDTO, hoje: LocalDate, isEmail: string -> bool): (r: seq<Violacao>)
    ensures r == [] <==>
      && NotBlank(d.nome) && NotBlank(d.email) && EmailOk(d.email, isEmail) && NotBlank(d.senha)
      && NotBlank(d.cpf) && DigitsPattern(d.cpf, 11, 11)
      && NotBlank(d.telefone) && DigitsPattern(d.telefone, 10, 11)
      && NotBlank(d.endereco)
      && d.dataNascimento.Some? && Before(d.dataNascimento.value, hoje)
    ensures forall v :: v in r ==> v.campo in {"nome", "email", "senha", "cpf", "telefone", "endereco", "dataNascimento"}
  {
    ViolacoesConta(d, isEmail) + ViolacoesCpf(d) + ViolacoesContato(d, hoje)
  }

  /** The constraints on `nome`, `email` and `senha`. */
  function ViolacoesConta(d: ClienteDTO, isEmail: string -> bool): (r: seq<Violacao>)
    ensures r == [] <==> NotBlank(d.nome) && NotBlank(d.email) && EmailOk(d.email, isEmail) && NotBlank(d.senha)
    ensures forall v :: v in r ==> v.campo in {"nome", "email", "senha"}
  {
    Se(NotBlank(d.nome), Violacao("nome", "Nome é obrigatório"))
    + Se(NotBlank(d.email), Violacao("email", "Email é obrigatório"))
    + Se(EmailOk(d.email, isEmail), Violacao("email", "Email inválido"))
    + Se(NotBlank(d.senha), Violacao("senha", "Senha é obrigatória"))
  }

  /** The two constraints on `cpf`. */
  function ViolacoesCpf(d: ClienteDTO): (r: seq<Violacao>)
    ensures Violacao("cpf", "CPF é obrigatório") in r <==> !NotBlank(d.cpf)
    ensures Violacao("cpf", "CPF deve conter 11 dígitos") in r <==> !DigitsPattern(d.cpf, 11, 11)
    ensures r == [] <==> NotBlank(d.cpf) && DigitsPattern(d.cpf, 11, 11)
    ensures forall v :: v in r ==> v.campo == "cpf"
  {
    Se(NotBlank(d.cpf), Violacao("cpf", "CPF é obrigatório"))
    + Se(DigitsPattern(d.cpf, 11, 11), Violacao("cpf", "CPF deve conter 11 dígitos"))
  }

  /** The constraints on `telefone`, `endereco` and `dataNascimento`. */
  function ViolacoesContato(d: ClienteDTO, hoje: LocalDate): (r: seq<Violacao>)
    ensures r == [] <==>
      NotBlank(d.telefone) && DigitsPattern(d.telefone, 10, 11) && NotBlank(d.endereco)
      && d.dataNascimento.Some? && Before(d.dataNascimento.value, hoje)
    ensures forall v :: v in r ==> v.campo in {"telefone", "endereco", "dataNascimento"}
    ensures d.dataNascimento.Some? && !Before(d.dataNascimento.value, hoje) ==>
              Violacao("dataNascimento", "Data de nascimento deve ser no passado") in r
  {
    Se(NotBlank(d.telefone), Violacao("telefone", "Telefone é obrigatório"))
    + Se(DigitsPattern(d.telefone, 10, 11), Violacao("telefone", "Telefone deve conter entre 10 e 11 dígitos"))
    + Se(NotBlank(d.endereco), Violacao("endereco", "Endereço é obrigatório"))
    + Se(d.dataNascimento.Some?, Violacao("dataNascimento", "Data de nascimento é obrigatória"))
    + Se(d.dataNascimento.None? || Before(d.dataNascimento.value, hoje),
         Violacao("dataNascimento", "Data de nascimento deve ser no passado"))
  }

  /** The field initializer: a request that leaves `status` out gets "ATIVO"; an explicit null stays null. */
  function StatusRecebido(enviado: Option<Option<string>>): (s: Option<string>)
    ensures enviado.None? ==> s == Some(ATIVO)
    ensures enviado.Some? ==> s == enviado.value
  {
    if enviado.None? then Some(ATIVO) else enviado.value
  }

  /** A CPF is accepted exactly when it is eleven ASCII digits. */
  lemma CpfOnzeDigitos(d: ClienteDTO, hoje: LocalDate, isEmail: string -> bool)
    requires d.cpf.Some?
    ensures (Violacao("cpf", "CPF é obrigatório") !in ViolacoesCliente(d, hoje, isEmail)
             && Violacao("cpf", "CPF deve conter 11 dígitos") !in ViolacoesCliente(d, hoje, isEmail))
            <==> |d.cpf.value| == 11 && AllDigits(d.cpf.value)
  {
    if |d.cpf.value| == 11 && AllDigits(d.cpf.value) {
      assert d.cpf.value[0] > ' ';
    }
  }

  /** A birth date of today is refused: `@Past` is strict. */
  lemma NascidoHojeRecusado(d: ClienteDTO, hoje: LocalDate, isEmail: string -> bool)
    requires d.dataNascimento == Some(hoje)
    ensures Violacao("dataNascimento", "Data de nascimento deve ser no passado") in ViolacoesCliente(d, hoje, isEmail)
  {
  }

  datatype AluguelDTO = AluguelDTO(
    id: Option<int>, dataInicio: Option<LocalDate>, dataFim: Option<LocalDate>, status: Option<string>,
    clienteId: Option<int>, imovelId: Option<int>, valorMensal: Option<int>, valorDeposito: Option<int>,
    observacoes: Option<string>)

  /** `AluguelDTO`'s constraints. */
  function ViolacoesAluguel(d: AluguelDTO, hoje: LocalDate): (r: seq<Violacao>)
    ensures r == [] <==>
      && d.dataInicio.Some? && d.dataFim.Some? && After(d.dataFim.value, hoje)
      && d.clienteId.Some? && d.imovelId.Some?
      && d.valorMensal.Some? && d.valorMensal.value >= 0
      && d.valorDeposito.Some? && d.valorDeposito.value >= 0
  {
    Se(d.dataInicio.Some?, Violacao("dataInicio", "Data de início é obrigatória"))
    + Se(d.dataFim.Some?, Violacao("dataFim", "Data de fim é obrigatória"))
    + Se(d.dataFim.None? || After(d.dataFim.value, hoje), Violacao("dataFim", "Data de fim deve ser futura"))
    + Se(d.clienteId.Some?, Violacao("clienteId", "O ID do cliente é obrigatório"))
    + Se(d.imovelId.Some?, Violacao("imovelId", "O ID do imóvel é obrigatório"))
    + Se(d.valorMensal.Some?, Violacao("valorMensal", "O valor mensal é obrigatório"))
    + Se(d.valorMensal.None? || d.valorMensal.value >= 0, Violacao("valorMensal", "Valor mensal deve ser maior que zero"))
    + Se(d.valorDeposito.Some?, Violacao("valorDeposito", "O valor do depósito é obrigatório"))
    + Se(d.valorDeposito.None? || d.valorDeposito.value >= 0, Violacao("valorDeposito", "Valor do depósito deve ser maior que zero"))
  }

  /**
   * `@Min(0)` accepts zero although its message says "greater than zero", and
   * no constraint relates the two dates: a free lease ending before it starts passes.
   */
  lemma AluguelGratisAoContrario()
    ensures var hoje: LocalDate := Date(2025, 1, 10);
            var d := AluguelDTO(None, Some(Date(2025, 3, 1)), Some(Date(2025, 2, 1)), None, Some(1), Some(2), Some(0), Some(0), None);
            ViolacoesAluguel(d, hoje) == [] && After(d.dataInicio.value, d.dataFim.value)
  {
  }

  datatype ImovelDTO = ImovelDTO(
    id: Option<int>, codigo: Option<string>, nome: Option<string>, endereco: Option<string>,
    descricao: Option<string>, valorMensal: Option<int>, status: Option<string>, tipo: Option<string>,
    administradorId: Option<int>)

  /** `ImovelDTO`'s constraints; `id`, `codigo`, `status` and `administradorId` have none. */
  function ViolacoesImovel(d: ImovelDTO): (r: seq<Violacao>)
    ensures r == [] <==>
      NotBlank(d.nome) && NotBlank(d.endereco) && NotBlank(d.descricao) && NotBlank(d.tipo)
      && d.valorMensal.Some? && d.valorMensal.value > 0
  {
    Se(NotBlank(d.nome), Violacao("nome", "Nome é obrigatório"))
    + Se(NotBlank(d.endereco), Violacao("endereco", "Endereço é obrigatório"))
    + Se(NotBlank(d.descricao), Violacao("descricao", "Descrição é obrigatória"))
    + Se(d.valorMensal.Some?, Violacao("valorMensal", "O valor mensal é obrigatório"))
    + Se(d.valorMensal.None? || d.valorMensal.value > 0, Violacao("valorMensal", "O valor mensal deve ser maior ou igual a zero"))
    + Se(NotBlank(d.tipo), Violacao("tipo", "Tipo é obrigatório"))
  }

  /** `@Positive` refuses zero although its message says "greater than or equal to zero". */
  lemma ImovelGratisRecusado(d: ImovelDTO)
    requires d.valorMensal == Some(0)
    ensures Violacao("valorMensal", "O valor mensal deve ser maior ou igual a zero") in ViolacoesImovel(d)
  {
  }

  /** The unconstrained fields never affect the verdict. */
  lemma ImovelCamposLivres(d: ImovelDTO, id: Option<int>, codigo: Option<string>, status: Option<string>, administradorId: Option<int>)
    ensures ViolacoesImovel(d.(id := id, codigo := codigo, status := status, administradorId := administradorId)) == ViolacoesImovel(d)
  {
  }

  datatype PagamentoDTO = PagamentoDTO(
    id: Option<int>, valor: Option<int>, dataPagamento: Option<LocalDate>, status: Option<string>,
    aluguelId: Option<int>, formaPagamento: Option<string>)

  /** `PagamentoDTO`'s constraints; any status string is accepted. */
  function ViolacoesPagamento(d: PagamentoDTO): (r: seq<Violacao>)
    ensures r == [] <==>
      d.valor.Some? && d.valor.value > 0 && d.dataPagamento.Some? && d.status.Some? && d.aluguelId.Some?
  {
    Se(d.valor.Some?, Violacao("valor", "Valor é obrigatório"))
    + Se(d.valor.None? || d.valor.value > 0, Violacao("valor", "Valor deve ser positivo"))
    + Se(d.dataPagamento.Some?, Violacao("dataPagamento", "Data de pagamento é obrigatória"))
    + Se(d.status.Some?, Violacao("status", "Status é obrigatório"))
    + Se(d.aluguelId.Some?, Violacao("aluguelId", "Aluguel é obrigatório"))
  }

  /** The status is only required to be present: any value, even one outside the lifecycle, passes. */
  lemma QualquerStatusPagamento(d: PagamentoDTO, s: string, f: Option<string>)
    requires ViolacoesPagamento(d) == []
    ensures ViolacoesPagamento(d.(status := Some(s), formaPagamento := f)) == []
  {
  }

  datatype UsuarioDTO = UsuarioDTO(id: Option<int>, nome: Option<string>, email: Option<string>, senha: Option<string>)

  /** `UsuarioDTO`'s constraints. */
  function ViolacoesUsuario(d: UsuarioDTO, isEmail: string -> bool): (r: seq<Violacao>)
    ensures r == [] <==> NotBlank(d.nome) && NotBlank(d.email) && isEmail(d.email.value) && NotBlank(d.senha)
  {
    Se(NotBlank(d.nome), Violacao("nome", "Nome é obrigatório"))
    + Se(NotBlank(d.email), Violacao("email", "Email é obrigatório"))
    + Se(EmailOk(d.email, isEmail), Violacao("email", "Email inválido"))
    + Se(NotBlank(d.senha), Violacao("senha", "Senha é obrigatória"))
  }

  /** A whitespace-only name is blank. */
  lemma NomeSoDeEspacosRecusado(d: UsuarioDTO, isEmail: string -> bool)
    requires d.nome == Some("   ")
    ensures Violacao("nome", "Nome é obrigatório") in ViolacoesUsuario(d, isEmail)
  {
  }
}
