/**
 * The records the front end receives from the API and lists in its pages:
 * `ClienteDTO` (services/clientes.ts), `Imovel` (services/imoveis.ts),
 * `ContratoDTO` (services/contratos.ts) and `PagamentoDTO` (services/pagamentos.ts).
 *
 * Amounts (`number` in TypeScript) are whole cents. An optional member
 * (`cliente?`, `email?`, a nullable `formaPagamento`) is an `Option`.
 */
module FrontTypes {
  import opened Wrappers

  const TODOS := "TODOS"
  const ATIVO := "ATIVO"
  const INATIVO := "INATIVO"
  const BLOQUEADO := "BLOQUEADO"
  const ALUGADO := "ALUGADO"
  const DISPONIVEL := "DISPONIVEL"
  const PENDENTE := "PENDENTE"
  const ATRASADO := "ATRASADO"
  const PAGO := "PAGO"

  datatype ClienteView = ClienteView(
    id: Option<int>, nome: string, email: Option<string>, cpf: string,
    telefone: string, endereco: string, dataNascimento: string, status: string)

  datatype Administrador = Administrador(id: int, nome: string, email: string)

  datatype ImovelView = ImovelView(
    id: int, codigo: string, nome: string, endereco: string, descricao: string,
    valorMensal: int, status: string, tipo: string, administrador: Administrador)

  /** The client and property summaries a lease or a payment carries. */
  datatype ParteCliente = ParteCliente(nome: string, cpf: string)
  datatype ParteImovel = ParteImovel(codigo: string, nome: string)

  datatype ContratoView = ContratoView(
    id: Option<int>, clienteId: int, imovelId: int, dataInicio: string, dataFim: string,
    valorMensal: int, valorDeposito: int, status: string,
    cliente: Option<ParteCliente>, imovel: Option<ParteImovel>)

  datatype PagamentoView = PagamentoView(
    id: Option<int>, contratoId: Option<int>, valor: int, dataPagamento: string, status: string,
    formaPagamento: Option<string>, cliente: Option<ParteCliente>, imovel: Option<ParteImovel>)
}
