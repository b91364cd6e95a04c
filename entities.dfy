/**
 * The rows of the backend's tables, as the services read and write them,
 * and the two exceptions the services throw.
 *
 * Amounts (`Double` in the entities) are whole cents. A reference to another
 * entity is held as that entity's id.
 */
module Entities {
  import opened Wrappers
  import opened Dates

  /** A `LocalDate` is always a real calendar day. */
  type LocalDate = d: Date | Valid(d) witness Date(2000, 1, 1)

  /** ResourceNotFoundException, BusinessException, or any other runtime exception. */
  datatype Failure = NotFound(message: string) | Business(message: string) | Unexpected(message: string)

  /**
   * The columns every user type inherits from `Usuario`. `senha` holds the
   * stored hash; it is null in a request that leaves the password out.
   */
  datatype Usuario = Usuario(id: int, nome: string, email: string, senha: Option<string>, tipo: Option<string>)

  datatype Cliente = Cliente(usuario: Usuario, telefone: string, endereco: string, status: Option<string>)

  datatype Imovel = Imovel(
    id: int, codigo: string, nome: string, endereco: string, descricao: string,
    valorMensal: int, status: string, tipo: string, fotos: seq<string>, administradorId: int)

  datatype Aluguel = Aluguel(
    id: int, clienteId: int, imovelId: int, dataInicio: LocalDate, dataFim: LocalDate,
    status: string, valorMensal: int, diaPagamento: int)

  /** `id` is null until the payment is first saved; so may be its lease and due date. */
  datatype Pagamento = Pagamento(
    id: Option<int>, dataPagamento: Option<LocalDate>, valor: int, status: string,
    formaPagamento: Option<string>, observacoes: Option<string>, aluguelId: Option<int>)

  /** A client's payment history: the client and the ids of its payments, in order. */
  datatype Historico = Historico(id: int, clienteId: int, pagamentos: seq<int>)

  const PENDENTE := "PENDENTE"
  const ATRASADO := "ATRASADO"
  const PAGO := "PAGO"
  const CANCELADO := "CANCELADO"
  const ATIVO := "ATIVO"
  const DISPONIVEL := "DISPONIVEL"
}
