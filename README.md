# Aluga Fácil, modelled in Dafny

Aluga Fácil is a rental-management application. A Spring backend keeps the tables of administrators, owners, clients, properties, leases and payments. A Next.js front end serves the administrators' list pages and forms, the client dashboard and the public property listing. This project models, and proves properties of, the parts of both halves that decide something:

- **Lease and payment lifecycle (backend).**
  - `AluguelService`: the availability test, the monthly payment plan, lease creation, deletion and status change, and the period listing.
  - The `Pagamento` entity's `@PrePersist`/`@PreUpdate` status hook.
  - The nightly `PagamentoScheduler`.
  - `PagamentoService`.
  - The per-lease summary of `PagamentoController.listarAgrupados` and its `alterarFormaPagamento` guard.
- **Guarded table updates (backend).** The `ClienteService`, `AdministradorService`, `ProprietarioService` and `ImovelService` operations, over repositories modelled as in-memory tables in one `Database.Db` object.
- **Backend validators and decisions.**
  - The Bean Validation constraints of the request DTOs.
  - The exception-to-status mapping of `GlobalExceptionHandler`.
  - The bearer-token extraction and the request flow of `JwtAuthenticationFilter`.
- **Front-end transformations.**
  - The two families of CPF, phone and CEP formatters, and the table counters.
  - `normalizeImovel` and the property client.
  - `DataTable` pagination.
  - The list pages' filters, the home page's filter and sort.
  - The forms' schemas, the birth-date mask and its conversion.
  - The two dashboard queries, the initials of the user menu and the status badge.
- **Front-end state.**
  - The `useDataTableState` and `useAsyncList` hooks.
  - The delete modal shared by the list pages.
  - The submit handlers of the forms and the new-lease page.
  - The routing decisions of the middleware, `ProtectedRoute` and `RoleContent`.

The backend entities whose fields the code changes in place are classes: the payment entity, the database and the request of the JWT filter. So are the front end's state records. Pure code is datatypes, functions and lemmas. Each stateful method is proved against specification functions of the old state, and the lemmas state what that means for the system.

Several behaviours of the code as written are stated as lemmas, not hidden:

- The scheduler marks payments due on or before today, but saving re-runs the entity hook, whose test is strict. A payment due exactly today therefore ends the run PENDENTE.
- The client form's CPF and phone cleaning uses the literal pattern `/\\D/g`. It removes only a backslash followed by `D`, so a CPF typed with punctuation is refused by the input guard.
- The client form's empty default birth date throws on submit.
- The payment list's search throws on a payment without a payment method. Its method filter is not re-applied when it changes.
- A selected id 0 is never deleted.
- The property list reloads after a status change whatever the server answered.
- `listarPorPeriodo` misses a lease that covers the whole period.
- `@Positive` on a property's rent refuses zero, although its message says "greater than or equal to zero".
- No constraint of the lease DTO relates its two dates, so a free lease that ends before it starts passes.
- Null lease data on the client dashboard throws a `TypeError` before the intended "invalid data" message.

Where the entity classes and the services that use them disagree, the model follows the services. A lease has `valorMensal` and `diaPagamento`, and a payment history belongs to a client and lists its payments. The members this affects are named in the list of what is left out, below.

## Model

| member | source | states |
|---|---|---|
| PagamentoModel.AposHook | backend/src/main/java/com/alugafacil/model/Pagamento.java:52-72 | the hook changes at most the status of the row |
| PagamentoModel.HookPreservaFinais | backend/src/main/java/com/alugafacil/model/Pagamento.java:55-58 | a PAGO or CANCELADO payment comes out of the hook unchanged |
| PagamentoModel.HookPorData | backend/src/main/java/com/alugafacil/model/Pagamento.java:60-71 | any other payment ends ATRASADO exactly when its due date is set and strictly before today, and PENDENTE otherwise (a null date included) |
| PagamentoModel.HookDominio | backend/src/main/java/com/alugafacil/model/Pagamento.java:52-72 | after the hook the status is PAGO, CANCELADO, ATRASADO or PENDENTE |
| PagamentoModel.HookIdempotente | backend/src/main/java/com/alugafacil/model/Pagamento.java:52-72 | running the hook twice on the same day changes nothing more |
| PagamentoModel.HookDesfazAtrasoDoDia | backend/src/main/java/com/alugafacil/model/Pagamento.java:65-71 | an ATRASADO payment due today is saved back as PENDENTE |
| PagamentoModel.HookReabreAtrasado | backend/src/main/java/com/alugafacil/model/Pagamento.java:65-71 | an ATRASADO payment whose due date moves to today or later becomes PENDENTE again |
| PagamentoModel.PagamentoEntity.constructor | backend/src/main/java/com/alugafacil/model/Pagamento.java:21-50 | a loaded entity carries exactly the fields of its row |
| PagamentoModel.PagamentoEntity.AtualizarStatus | backend/src/main/java/com/alugafacil/model/Pagamento.java:52-72 | the in-place hook: final statuses stay, otherwise ATRASADO iff the date is before today, and its new row is AposHook of the old one |
| PagamentoModel.PagamentoEntity.SetStatus | backend/src/main/java/com/alugafacil/model/Pagamento.java:14 | the Lombok setter changes only the status |
| PagamentoModel.PagamentoEntity.SetDataPagamento | backend/src/main/java/com/alugafacil/model/Pagamento.java:14 | the Lombok setter changes only the due date |
| PagamentoModel.PagamentoEntity.SetAluguel | backend/src/main/java/com/alugafacil/model/Pagamento.java:42-45 | the setter changes only the lease reference |
| PagamentoModel.SalvarExistente | backend/src/main/java/com/alugafacil/model/Pagamento.java:52-54 | saving a stored payment runs the @PreUpdate hook and overwrites only that row |
| PagamentoModel.Persistir | backend/src/main/java/com/alugafacil/model/Pagamento.java:23-25 | saving a new payment takes the next IDENTITY id, runs the @PrePersist hook and inserts only that row |
| PagamentoScheduler.AposExecucao | backend/src/main/java/com/alugafacil/service/PagamentoScheduler.java:31-42 | one run keeps the same set of payment ids |
| PagamentoScheduler.Parcial | backend/src/main/java/com/alugafacil/service/PagamentoScheduler.java:38-42 | the table part-way through the loop keeps the same ids |
| PagamentoScheduler.ParcialPasso | backend/src/main/java/com/alugafacil/service/PagamentoScheduler.java:38-42 | one more iteration sets one row ATRASADO and saves it through the hook |
| PagamentoScheduler.ParcialCompleto | backend/src/main/java/com/alugafacil/service/PagamentoScheduler.java:34-42 | after every selected row has been handled, the table is the result of the whole run |
| PagamentoScheduler.ParcialVazio | backend/src/main/java/com/alugafacil/service/PagamentoScheduler.java:38 | before the loop runs the table is unchanged |
| PagamentoScheduler.MarcarAtrasado | backend/src/main/java/com/alugafacil/service/PagamentoScheduler.java:38-39 | one iteration replaces only the selected row, by that row set ATRASADO and passed through the update hook |
| PagamentoScheduler.AtualizarStatusPagamentos | backend/src/main/java/com/alugafacil/service/PagamentoScheduler.java:24-46 | the loop over the PENDENTE payments due on or before today leaves the table equal to AposExecucao of the old table |
| PagamentoScheduler.AtualizarStatusPagamentosManualmente | backend/src/main/java/com/alugafacil/service/PagamentoScheduler.java:48-54 | the manual trigger has the same effect as the nightly run |
| PagamentoScheduler.VencidoAntesDeHojeFicaAtrasado | backend/src/main/java/com/alugafacil/service/PagamentoScheduler.java:33-42 | a PENDENTE payment due strictly before today is ATRASADO after the run |
| PagamentoScheduler.VencidoHojeContinuaPendente | backend/src/main/java/com/alugafacil/service/PagamentoScheduler.java:33-40 | a PENDENTE payment due today is picked by the query, but the save hook puts it back to PENDENTE |
| PagamentoScheduler.NaoSelecionadoIntocado | backend/src/main/java/com/alugafacil/service/PagamentoScheduler.java:34 | rows that are not PENDENTE, or are due after today or never, are untouched |
| PagamentoScheduler.SoStatusMuda | backend/src/main/java/com/alugafacil/service/PagamentoScheduler.java:39-40 | the run writes only the status field |
| PagamentoScheduler.EfeitoLiquido | backend/src/main/java/com/alugafacil/service/PagamentoScheduler.java:31-42 | net effect: exactly the PENDENTE rows due strictly before today change, and they become ATRASADO |
| PagamentoScheduler.Idempotente | backend/src/main/java/com/alugafacil/service/PagamentoScheduler.java:24-46 | running twice on the same day is the same as running once |
| PagamentoScheduler.PagamentoDoDiaNaoFicaAtrasado | backend/src/main/java/com/alugafacil/service/PagamentoScheduler.java:33-34 | a concrete table where the payment due today, which the query comment says is included, stays PENDENTE |
| Database.Db.constructor | backend/src/main/java/com/alugafacil/repository/PagamentoRepository.java:12 | the repositories start empty and consistent |
| Database.BuscarCliente | backend/src/main/java/com/alugafacil/service/ClienteService.java:41-44 | the client is found iff its id is stored; otherwise NotFound "Cliente não encontrado" |
| Database.BuscarImovel | backend/src/main/java/com/alugafacil/service/ImovelService.java:30-33 | the property is found iff stored; otherwise NotFound "Imóvel não encontrado" |
| Database.BuscarAluguel | backend/src/main/java/com/alugafacil/service/AluguelService.java:120-123 | the lease is found iff stored; otherwise NotFound "Aluguel não encontrado" |
| Database.BuscarPagamento | backend/src/main/java/com/alugafacil/service/PagamentoService.java:45-48 | the payment is found iff stored; otherwise NotFound "Pagamento não encontrado" |
| Database.BuscarAdministrador | backend/src/main/java/com/alugafacil/service/AdministradorService.java:32-35 | the administrator is found iff stored; otherwise NotFound "Administrador não encontrado" |
| Database.BuscarProprietario | backend/src/main/java/com/alugafacil/service/ProprietarioService.java:32-35 | the owner is found iff stored; otherwise NotFound "Proprietário não encontrado" |
| Database.BuscarHistoricoDoCliente | backend/src/main/java/com/alugafacil/service/HistoricoPagamentoService.java:29-34 | a missing client gives "Cliente não encontrado"; a client with no history gives "Histórico de pagamento não encontrado para este cliente"; otherwise the client's stored history |
| AluguelService.Consulta | backend/src/main/java/com/alugafacil/service/AluguelService.java:214-218 | the query returns exactly the ATIVO leases of the property that end on or after the requested start |
| AluguelService.VerificarDisponibilidade | backend/src/main/java/com/alugafacil/service/AluguelService.java:199-248 | a missing property gives NotFound; otherwise the early-return loop answers Disponivel (status DISPONIVEL and no queried lease overlaps) |
| AluguelService.IndisponivelPorStatus | backend/src/main/java/com/alugafacil/service/AluguelService.java:207-210 | a property not DISPONIVEL is never available |
| AluguelService.DisponivelSemConsulta | backend/src/main/java/com/alugafacil/service/AluguelService.java:222-225 | a DISPONIVEL property with an empty query result is available |
| AluguelService.DisponivelSeSemSobreposicao | backend/src/main/java/com/alugafacil/service/AluguelService.java:214-240 | availability iff DISPONIVEL and no ATIVO lease of the property strictly overlaps the period; the query's end-date filter adds nothing |
| AluguelService.ExtremosQueSeTocam | backend/src/main/java/com/alugafacil/service/AluguelService.java:235-236 | periods that only touch at an end day do not overlap |
| AluguelService.SoAtivosDoImovelBloqueiam | backend/src/main/java/com/alugafacil/service/AluguelService.java:214-218 | a lease of another property, or one not ATIVO, never makes a property unavailable |
| AluguelService.DataDaParcela | backend/src/main/java/com/alugafacil/service/AluguelService.java:97-99 | the due date exists iff the payment day exists in that month; it falls i months after the start, on the payment day |
| AluguelService.Parcela | backend/src/main/java/com/alugafacil/service/AluguelService.java:101-106 | the built payment has no id, the lease's value, the due date, PENDENTE and the lease |
| AluguelService.Plano | backend/src/main/java/com/alugafacil/service/AluguelService.java:86-110 | the plan has one payment per month from the start's month to the end's, none when that count is not positive |
| AluguelService.GerarPagamentosMensais | backend/src/main/java/com/alugafacil/service/AluguelService.java:82-118 | succeeds iff every month has the payment day, with the plan; otherwise a BusinessException prefixed "Erro ao gerar pagamentos mensais: " |
| AluguelService.PlanoUmPorMes | backend/src/main/java/com/alugafacil/service/AluguelService.java:96-108 | payment i is in the i-th month from the start, on the payment day, for the lease's value, PENDENTE |
| AluguelService.PlanoCobreOPeriodo | backend/src/main/java/com/alugafacil/service/AluguelService.java:87-90 | a non-empty plan starts in the start's month and ends in the end's month |
| AluguelService.PlanoOrdenado | backend/src/main/java/com/alugafacil/service/AluguelService.java:96-99 | the due dates of the plan strictly increase |
| AluguelService.PlanoVazio | backend/src/main/java/com/alugafacil/service/AluguelService.java:87-96 | an end in an earlier month than the start gives an empty plan and no failure |
| AluguelService.DiaAte28SempreGera | backend/src/main/java/com/alugafacil/service/AluguelService.java:97-99 | a payment day from 1 to 28 never fails |
| AluguelService.DiaForaDoMesFalha | backend/src/main/java/com/alugafacil/service/AluguelService.java:97-99 | a payment day outside 1..31 fails for any lease with at least one month |
| AluguelService.Dia31FalhaEmFevereiro | backend/src/main/java/com/alugafacil/service/AluguelService.java:97-99 | day 31 on a January-to-March 2025 lease fails in February |
| AluguelService.Novo | backend/src/main/java/com/alugafacil/service/AluguelService.java:38-54 | the lease to save has the request's dates, value and day, the client, the property and status ATIVO |
| AluguelService.SalvarNovo | backend/src/main/java/com/alugafacil/service/AluguelService.java:58 | saving a new lease takes the next id and inserts only that row |
| AluguelService.Criar | backend/src/main/java/com/alugafacil/service/AluguelService.java:32-80 | NotFound for a missing client or property, in that order; "Imóvel não está disponível no período selecionado" when unavailable; on success the ATIVO lease and its whole plan are stored; any failure leaves every table as it was |
| AluguelService.SalvarComPlano | backend/src/main/java/com/alugafacil/service/AluguelService.java:56-74 | the lease and plan are stored iff the plan can be built; otherwise a BusinessException and the transaction rolls back |
| AluguelService.CriadoBloqueia | backend/src/main/java/com/alugafacil/service/AluguelService.java:48-54 | a created ATIVO lease blocks every later overlapping request for the same property |
| AluguelService.AtualizarStatus | backend/src/main/java/com/alugafacil/service/AluguelService.java:143-148 | a missing lease gives NotFound and no change; otherwise only that lease's status changes |
| AluguelService.ListarPorPeriodo | backend/src/main/java/com/alugafacil/service/AluguelService.java:139-141 | returns exactly the leases whose start or end lies in the period, bounds included |
| AluguelService.ListarPorPeriodoInclusivo | backend/src/main/java/com/alugafacil/service/AluguelService.java:139-141 | a lease starting or ending on a bound is listed |
| AluguelService.ListarPorPeriodoIgnoraEnvolvente | backend/src/main/java/com/alugafacil/service/AluguelService.java:139-141 | a lease that covers the whole period but starts and ends outside it is not listed |
| AluguelService.PendentesDoAluguel | backend/src/main/java/com/alugafacil/service/AluguelService.java:178-182 | exactly the lease's PENDENTE payments are the ones the loop deletes |
| AluguelService.Excluir | backend/src/main/java/com/alugafacil/service/AluguelService.java:150-197 | a missing lease gives a wrapped "Erro ao excluir aluguel: Aluguel não encontrado"; an ATIVO lease or one with a PAGO payment is refused with its message; on success the lease and every one of its payments go (the PENDENTE ones by the loop, the rest by the cascade of `deleteById`) and every other payment stays; on failure nothing changes |
| AluguelService.ExcluirPendentes | backend/src/main/java/com/alugafacil/service/AluguelService.java:177-182 | the loop over the lease's payments deletes exactly its PENDENTE ones and leaves every other row |
| AluguelService.ExcluirSoRemovePendentes | backend/src/main/java/com/alugafacil/service/AluguelService.java:178-182 | the loop itself leaves payments that are not PENDENTE (ATRASADO, CANCELADO); the cascade of `deleteById` removes them with the lease |
| AluguelService.PagamentosDoAluguel | backend/src/main/java/com/alugafacil/model/Aluguel.java:45-47 | the rows the `CascadeType.ALL` collection of a lease holds: exactly the payments whose lease is that one, a superset of its PENDENTE ones |
| AluguelService.ExcluirComCascata | backend/src/main/java/com/alugafacil/service/AluguelService.java:185-187 | `deleteById` removes the lease and, through the cascade on `Aluguel.pagamentos`, all of its remaining payments, and nothing else |
| AluguelService.CascataAbrangeLaco | backend/src/main/java/com/alugafacil/service/AluguelService.java:177-187 | whatever the loop deleted before it, the cascade leaves the same table: every payment of the lease gone, every other row unchanged |
| PagamentoService.Registrado | backend/src/main/java/com/alugafacil/service/PagamentoService.java:32-33 | registering sets only the lease and status PENDENTE |
| PagamentoService.RegistradoStatus | backend/src/main/java/com/alugafacil/service/PagamentoService.java:33-35 | a registered payment is stored PENDENTE, or ATRASADO when its due date has passed, because of the save hook |
| PagamentoService.Anexar | backend/src/main/java/com/alugafacil/service/PagamentoService.java:39 | the history gets the payment at its end and keeps its entries |
| PagamentoService.AnexarPreserva | backend/src/main/java/com/alugafacil/service/PagamentoService.java:39 | appending never drops or reorders an existing entry |
| PagamentoService.Salvar | backend/src/main/java/com/alugafacil/service/PagamentoService.java:35 | save of a new or stored payment: the id is kept or assigned, the hook runs, and only that row changes |
| PagamentoService.Registrar | backend/src/main/java/com/alugafacil/service/PagamentoService.java:24-43 | NotFound for a missing lease; "Não é possível registrar pagamento para um aluguel que não está ativo"; a missing client or history fails and rolls back; on success the hooked payment is stored and added to the client's history |
| PagamentoService.RegistrarAtivo | backend/src/main/java/com/alugafacil/service/PagamentoService.java:32-42 | for a found, active lease: no client or history for its client fails with NotFound and leaves every table as it was; otherwise the payment, tied to the lease and hooked, is stored and appended to that client's history |
| PagamentoService.AnexarOuDesfazer | backend/src/main/java/com/alugafacil/service/PagamentoService.java:37-42 | after the save: a missing client or history fails with NotFound and puts the payments table and the id counter back as they were before the save; otherwise the saved payment is returned and appended to its client's history |
| PagamentoService.AnexarAoHistorico | backend/src/main/java/com/alugafacil/service/HistoricoPagamentoService.java:29-40 | finds the client's history and saves it with the payment appended, or fails with NotFound and no change |
| PagamentoService.ConfirmarPagamento | backend/src/main/java/com/alugafacil/service/PagamentoService.java:63-69 | NotFound with no change, or the payment becomes PAGO dated today, which the hook keeps |
| PagamentoService.Excluir | backend/src/main/java/com/alugafacil/service/PagamentoService.java:71-78 | NotFound; a PAGO payment is refused with "Não é possível excluir um pagamento já confirmado"; otherwise exactly that row is removed |
| PagamentoService.DoAluguel | backend/src/main/java/com/alugafacil/repository/PagamentoRepository.java:13 | exactly the payments of one lease, unchanged |
| PagamentoService.ListarPorAluguel | backend/src/main/java/com/alugafacil/service/PagamentoService.java:54-57 | NotFound iff the lease is missing; otherwise exactly its payments |
| PagamentoService.Inseridos | backend/src/main/java/com/alugafacil/service/AluguelService.java:66-67 | inserting n new payments adds ids base..base+n-1, each through the hook, and keeps the other rows |
| PagamentoService.InseridosPasso | backend/src/main/java/com/alugafacil/service/AluguelService.java:67 | inserting one more payment adds exactly one hooked row |
| PagamentoService.InseridosVazio | backend/src/main/java/com/alugafacil/service/AluguelService.java:67 | inserting no payment leaves the table as it was |
| PagamentoService.CriarTodos | backend/src/main/java/com/alugafacil/service/AluguelService.java:66-72 | the plan is inserted in order through the hook and the id counter moves past it |
| PagamentoService.InserirProximo | backend/src/main/java/com/alugafacil/service/AluguelService.java:67 | one more save puts the next payment of the plan under the next id and moves the counter by one |
| PagamentoService.Inserir | backend/src/main/java/com/alugafacil/service/AluguelService.java:67 | saving a new payment stores it, through the hook, under the next id and moves the counter by one |
| PagamentoService.InseridosPreserva | backend/src/main/java/com/alugafacil/service/AluguelService.java:67 | inserting never overwrites a stored row |
| PagamentoController.Acumular | backend/src/main/java/com/alugafacil/controller/PagamentoController.java:106-118 | one payment adds 1 and its value to the totals and to at most one of the three status counters |
| PagamentoController.Contratos | backend/src/main/java/com/alugafacil/controller/PagamentoController.java:82-91 | the groups are exactly the lease ids of payments that have a lease |
| PagamentoController.Agrupar | backend/src/main/java/com/alugafacil/controller/PagamentoController.java:80-121 | one group per mentioned contract, each equal to its field-by-field summary |
| PagamentoController.GrupoDeAusente | backend/src/main/java/com/alugafacil/controller/PagamentoController.java:92-104 | a contract not mentioned has the all-zero group of computeIfAbsent |
| PagamentoController.GrupoDePasso | backend/src/main/java/com/alugafacil/controller/PagamentoController.java:106-118 | adding a payment at the end updates its contract's group as the loop body does |
| PagamentoController.ContratosPasso | backend/src/main/java/com/alugafacil/controller/PagamentoController.java:82-91 | one more payment adds its lease id, if it has one, to the contracts of the list |
| PagamentoController.AgruparPassoSemContrato | backend/src/main/java/com/alugafacil/controller/PagamentoController.java:82-91 | a payment without a lease leaves the summary as it was |
| PagamentoController.AgruparPassoComContrato | backend/src/main/java/com/alugafacil/controller/PagamentoController.java:92-119 | a payment of a lease updates that lease's group, created empty when absent, and no other group |
| PagamentoController.AgruparPasso | backend/src/main/java/com/alugafacil/controller/PagamentoController.java:82-119 | a payment without a lease is skipped; otherwise its group is created if absent and updated |
| PagamentoController.ListarAgrupados | backend/src/main/java/com/alugafacil/controller/PagamentoController.java:74-128 | the loop's HashMap equals Agrupar of the payment list |
| PagamentoController.GrupoNaoVazio | backend/src/main/java/com/alugafacil/controller/PagamentoController.java:92-107 | every reported group counts at least one payment |
| PagamentoController.ContagensAteOTotal | backend/src/main/java/com/alugafacil/controller/PagamentoController.java:107-118 | pagos + pendentes + atrasados never exceed totalPagamentos, and equal it when every status is one of those three |
| PagamentoController.SomasAteOTotal | backend/src/main/java/com/alugafacil/controller/PagamentoController.java:106-118 | with non-negative values, the three partial sums never exceed valorTotal |
| PagamentoController.GrupoConsistente | backend/src/main/java/com/alugafacil/controller/PagamentoController.java:92-121 | every reported group has its own id, at least one payment and counters and sums bounded by its totals |
| PagamentoController.AlterarFormaPagamento | backend/src/main/java/com/alugafacil/controller/PagamentoController.java:64-72 | 400 iff the key is missing or null; otherwise the service is called with that value |
| UsuarioService.Codificar | backend/src/main/java/com/alugafacil/service/ClienteService.java:30 | a present password is encoded; a null one throws from the encoder instead |
| UsuarioService.SenhaAoAtualizar | backend/src/main/java/com/alugafacil/service/ClienteService.java:55-59 | an absent or empty new password keeps the stored hash; any other is encoded |
| UsuarioService.Atualizado | backend/src/main/java/com/alugafacil/service/AdministradorService.java:42-52 | the updated user has the path's id, the request's name, e-mail and type, and the password rule's value |
| UsuarioService.AtualizarIdempotente | backend/src/main/java/com/alugafacil/service/ProprietarioService.java:42-52 | applying the same update twice gives the same row as once |
| ClienteService.Inserido | backend/src/main/java/com/alugafacil/model/Cliente.java:38-44 | the inserted client has the fresh id, the hash, type CLIENTE, the given status or ATIVO, and the request's other fields |
| ClienteService.Cadastrar | backend/src/main/java/com/alugafacil/service/ClienteService.java:24-39 | "Email já cadastrado" when the e-mail is taken; a null password fails; otherwise the client and one empty payment history for it are stored; on failure nothing changes |
| ClienteService.Atualizado | backend/src/main/java/com/alugafacil/service/ClienteService.java:50-62 | the saved client is the request with the path's id and the password rule; status and contacts come from the request |
| ClienteService.Atualizar | backend/src/main/java/com/alugafacil/service/ClienteService.java:50-62 | NotFound with no change, or only that client's row is replaced by Atualizado |
| ClienteService.Excluir | backend/src/main/java/com/alugafacil/service/ClienteService.java:64-68 | NotFound with no change; a client that some lease references is refused by the database's NOT NULL `cliente_id` (an unexpected error, a 500), with no change; otherwise exactly that client is removed |
| ClienteService.CadastradoOcupaEmail | backend/src/main/java/com/alugafacil/service/UsuarioService.java:34-36 | a stored client's e-mail counts as taken, so registering it again is refused |
| AdministradorService.Inserido | backend/src/main/java/com/alugafacil/model/Administrador.java:28-31 | the inserted administrator has the fresh id, the hash, type ADMIN and the request's name and e-mail |
| AdministradorService.Cadastrar | backend/src/main/java/com/alugafacil/service/AdministradorService.java:22-30 | "Email já cadastrado" when taken; a null password fails; otherwise exactly one administrator row is inserted; on failure nothing changes |
| AdministradorService.Atualizar | backend/src/main/java/com/alugafacil/service/AdministradorService.java:41-53 | NotFound with no change, or only that row is replaced by the update |
| AdministradorService.Excluir | backend/src/main/java/com/alugafacil/service/AdministradorService.java:55-59 | NotFound with no change; an administrator that some property references is refused by the database's NOT NULL `administrador_id` (an unexpected error, a 500), with no change; otherwise exactly that row is removed |
| ProprietarioService.Inserido | backend/src/main/java/com/alugafacil/model/Proprietario.java:25-28 | the inserted owner has the fresh id and hash, and the type as sent, because a @PostConstruct callback never runs on an entity |
| ProprietarioService.Cadastrar | backend/src/main/java/com/alugafacil/service/ProprietarioService.java:22-30 | "Email já cadastrado" when taken; a null password fails; otherwise exactly one owner row is inserted; on failure nothing changes |
| ProprietarioService.Atualizar | backend/src/main/java/com/alugafacil/service/ProprietarioService.java:41-53 | NotFound with no change, or only that row is replaced by the update |
| ProprietarioService.Excluir | backend/src/main/java/com/alugafacil/service/ProprietarioService.java:55-59 | NotFound with no change, or exactly that row is removed |
| ImovelService.Cadastrar | backend/src/main/java/com/alugafacil/service/ImovelService.java:22-28 | NotFound for a missing administrator; a UUID already in use is refused by the unique column; otherwise the property is stored with a fresh id, the UUID and the administrator; codes stay unique |
| ImovelService.BuscarPorCodigo | backend/src/main/java/com/alugafacil/service/ImovelService.java:35-38 | found iff some stored property has the code, and the result has it; otherwise "Imóvel não encontrado" |
| ImovelService.BuscarPorCodigoUnico | backend/src/main/java/com/alugafacil/service/ImovelService.java:35-38 | with unique codes the lookup can only find one property |
| ImovelService.Onde | backend/src/main/java/com/alugafacil/repository/ImovelRepository.java:12-17 | a findBy query returns exactly the rows that match, unchanged |
| ImovelService.ListarPorAdministrador | backend/src/main/java/com/alugafacil/service/ImovelService.java:44-47 | NotFound iff the administrator is missing; otherwise exactly that administrator's properties |
| ImovelService.ListarPorStatus | backend/src/main/java/com/alugafacil/service/ImovelService.java:49-51 | exactly the properties with that status |
| ImovelService.ListarPorTipo | backend/src/main/java/com/alugafacil/service/ImovelService.java:53-55 | exactly the properties of that type |
| ImovelService.ListarPorValorMaximo | backend/src/main/java/com/alugafacil/service/ImovelService.java:57-59 | exactly the properties whose rent is at most the value, bound included |
| ImovelService.ValorMaximoMonotono | backend/src/main/java/com/alugafacil/service/ImovelService.java:57-59 | raising the maximum never drops a property |
| ImovelService.Atualizado | backend/src/main/java/com/alugafacil/service/ImovelService.java:61-81 | the saved row is the request with the stored id, code and administrator |
| ImovelService.AtualizadoIdempotente | backend/src/main/java/com/alugafacil/service/ImovelService.java:61-70 | the same update twice gives the same row as once |
| ImovelService.MesmoCodigoPreservaUnicidade | backend/src/main/java/com/alugafacil/service/ImovelService.java:66 | replacing a row by one with the same code keeps codes unique |
| ImovelService.SalvarAtualizado | backend/src/main/java/com/alugafacil/service/ImovelService.java:69 | only the updated row changes and codes stay unique |
| ImovelService.Atualizar | backend/src/main/java/com/alugafacil/service/ImovelService.java:61-70 | NotFound with no change, or only that row is replaced by Atualizado |
| ImovelService.AtualizarPorCodigo | backend/src/main/java/com/alugafacil/service/ImovelService.java:72-81 | NotFound iff no property has the code; otherwise one such row is replaced, keeping its id and code |
| ImovelService.AtualizarStatus | backend/src/main/java/com/alugafacil/service/ImovelService.java:83-88 | NotFound with no change, or only that property's status changes |
| ImovelService.Excluir | backend/src/main/java/com/alugafacil/service/ImovelService.java:90-97 | NotFound; "Não é possível excluir um imóvel que possui aluguéis" when a lease references it; otherwise exactly that row is removed |
| ImovelService.ExcluirPorCodigo | backend/src/main/java/com/alugafacil/service/ImovelService.java:99-109 | NotFound for an unknown code; refused when the property has leases; with unique codes, removes the one property with that code exactly when it has no lease |
| ExceptionHandler.Nearest | backend/src/main/java/com/alugafacil/exception/GlobalExceptionHandler.java:20-155 | the handler chosen is the first class of the exception's chain that has a handler, and none exists iff no class of the chain is handled |
| ExceptionHandler.NearestIsFirst | backend/src/main/java/com/alugafacil/exception/GlobalExceptionHandler.java:20-155 | a handled class with no handled class before it in the chain is the one chosen |
| ExceptionHandler.Corpo | backend/src/main/java/com/alugafacil/exception/GlobalExceptionHandler.java:23-154 | every body's error is the reason phrase of its status and its path the request URI; details are present only for the two validation handlers |
| ExceptionHandler.Tratar | backend/src/main/java/com/alugafacil/exception/GlobalExceptionHandler.java:20-155 | a response exists iff some class of the chain is handled; its status is 400, 401, 403, 404 or 500 with the matching reason phrase |
| ExceptionHandler.SempreTratada | backend/src/main/java/com/alugafacil/exception/GlobalExceptionHandler.java:141-154 | every exception reaches the Exception handler, so every one gets a response |
| ExceptionHandler.CredenciaisInvalidas | backend/src/main/java/com/alugafacil/exception/GlobalExceptionHandler.java:96-109 | BadCredentialsException gets its own 401 "Email ou senha inválidos", not the general authentication one |
| ExceptionHandler.OutraAutenticacao | backend/src/main/java/com/alugafacil/exception/GlobalExceptionHandler.java:126-139 | any other AuthenticationException gets 401 "Não autorizado" |
| ExceptionHandler.ErroInternoOcultaMensagem | backend/src/main/java/com/alugafacil/exception/GlobalExceptionHandler.java:141-154 | an unhandled class gets a 500 whose message is fixed, hiding the exception's own |
| ExceptionHandler.Outras | backend/src/main/java/com/alugafacil/exception/GlobalExceptionHandler.java:141 | classes outside the application and Spring stand for themselves, one per name |
| ExceptionHandler.DeFalha | backend/src/main/java/com/alugafacil/exception/GlobalExceptionHandler.java:23-51 | every service failure is an Exception |
| ExceptionHandler.RespostaDeFalha | backend/src/main/java/com/alugafacil/exception/GlobalExceptionHandler.java:23-51 | ResourceNotFoundException becomes 404 and BusinessException 400, each with its own message; any other failure becomes the fixed 500 |
| ExceptionHandler.Validacao | backend/src/main/java/com/alugafacil/exception/GlobalExceptionHandler.java:53-94 | both validation handlers answer 400 "Erro de validação" with the carried messages in order |
| JwtFilter.GetJwtFromRequest | backend/src/main/java/com/alugafacil/security/JwtAuthenticationFilter.java:67-75 | a token is read iff the header has text and starts with "Bearer ", and it is the rest of the header |
| JwtFilter.BearerRoundTrip | backend/src/main/java/com/alugafacil/security/JwtAuthenticationFilter.java:71-72 | any token sent after "Bearer " is read back unchanged |
| JwtFilter.SemToken | backend/src/main/java/com/alugafacil/security/JwtAuthenticationFilter.java:71-74 | a missing or blank header, or one without the prefix, gives no token |
| JwtFilter.Autenticado | backend/src/main/java/com/alugafacil/security/JwtAuthenticationFilter.java:37-53 | a user is authenticated iff the token has text, validates, yields a user id, and that user loads |
| JwtFilter.BearerSozinho | backend/src/main/java/com/alugafacil/security/JwtAuthenticationFilter.java:40 | the header "Bearer " alone gives an empty token, which never authenticates |
| JwtFilter.Requisicao.constructor | backend/src/main/java/com/alugafacil/security/JwtAuthenticationFilter.java:33 | a request starts with the given security context and has not yet continued the chain |
| JwtFilter.Requisicao.DoFilterInternal | backend/src/main/java/com/alugafacil/security/JwtAuthenticationFilter.java:32-60 | the chain continues exactly once on every path, and the context is set to the authenticated user or left as it was |
| DtoValidation.Se | backend/src/main/java/com/alugafacil/dto/ClienteDTO.java:16-39 | one constraint yields its single violation exactly when it fails |
| DtoValidation.ViolacoesCliente | backend/src/main/java/com/alugafacil/dto/ClienteDTO.java:12-42 | no violation iff every field is non-blank, the e-mail has the format, the CPF is 11 digits, the phone 10 or 11 digits and the birth date is present and strictly past; violations name only those fields |
| DtoValidation.ViolacoesConta | backend/src/main/java/com/alugafacil/dto/ClienteDTO.java:16-24 | no violation iff nome, email and senha are non-blank and the e-mail has the format; violations name only those fields |
| DtoValidation.ViolacoesCpf | backend/src/main/java/com/alugafacil/dto/ClienteDTO.java:26-28 | the 'required' violation appears iff the CPF is blank, the pattern violation iff it is present and not eleven digits; violations name only the CPF |
| DtoValidation.ViolacoesContato | backend/src/main/java/com/alugafacil/dto/ClienteDTO.java:30-39 | no violation iff the phone is non-blank and 10 or 11 digits, the address non-blank and the birth date present and strictly past; a birth date not in the past is reported |
| DtoValidation.StatusRecebido | backend/src/main/java/com/alugafacil/dto/ClienteDTO.java:41 | a request without status gets "ATIVO"; an explicit value, null included, is kept |
| DtoValidation.CpfOnzeDigitos | backend/src/main/java/com/alugafacil/dto/ClienteDTO.java:26-28 | a present CPF passes both of its constraints iff it is exactly eleven ASCII digits |
| DtoValidation.NascidoHojeRecusado | backend/src/main/java/com/alugafacil/dto/ClienteDTO.java:37-39 | a birth date of today is refused, since @Past is strict |
| DtoValidation.ViolacoesAluguel | backend/src/main/java/com/alugafacil/dto/AluguelDTO.java:11-38 | no violation iff both dates are present with the end strictly after today, both ids are present and both values are present and at least zero |
| DtoValidation.AluguelGratisAoContrario | backend/src/main/java/com/alugafacil/dto/AluguelDTO.java:14-35 | a concrete lease with zero values and an end before its start passes every constraint |
| DtoValidation.ViolacoesImovel | backend/src/main/java/com/alugafacil/dto/ImovelDTO.java:10-33 | no violation iff name, address, description and type are non-blank and the rent is present and strictly positive |
| DtoValidation.ImovelGratisRecusado | backend/src/main/java/com/alugafacil/dto/ImovelDTO.java:23-25 | a rent of zero is refused, despite the message's "maior ou igual a zero" |
| DtoValidation.ImovelCamposLivres | backend/src/main/java/com/alugafacil/dto/ImovelDTO.java:11-12 | id, codigo, status and administradorId never change the verdict |
| DtoValidation.ViolacoesPagamento | backend/src/main/java/com/alugafacil/dto/PagamentoDTO.java:10-27 | no violation iff the value is present and positive and the date, status and lease are present |
| DtoValidation.QualquerStatusPagamento | backend/src/main/java/com/alugafacil/dto/PagamentoDTO.java:20-26 | any status string and any payment method pass once the rest is valid |
| DtoValidation.ViolacoesUsuario | backend/src/main/java/com/alugafacil/dto/UsuarioDTO.java:8-20 | no violation iff name, e-mail and password are non-blank and the e-mail has the format |
| DtoValidation.NomeSoDeEspacosRecusado | backend/src/main/java/com/alugafacil/dto/UsuarioDTO.java:11-12 | a name of spaces only is blank and refused |
| LibFormatters.GrupoCpf | frontend/src/lib/formatters.ts:3 | the grouped CPF is 14 characters with dots at 3 and 7 and a dash at 11 |
| LibFormatters.GrupoCelular | frontend/src/lib/formatters.ts:9 | the grouped mobile number is 15 characters, with the area code in parentheses, a space after them and a dash at 10 |
| LibFormatters.GrupoFixo | frontend/src/lib/formatters.ts:11 | the grouped landline number is 14 characters, with the area code in parentheses, a space after them and a dash at 9 |
| LibFormatters.FormatarCpf | frontend/src/lib/formatters.ts:1-4 | with exactly 11 digits after stripping, the CPF is 14 characters with dots at 3 and 7 and a dash at 11; with any other count the bare digits come back |
| LibFormatters.FormatarTelefone | frontend/src/lib/formatters.ts:6-12 | after stripping, 11 digits give "(DD) DDDDD-DDDD", 10 digits give "(DD) DDDD-DDDD", and any other count the bare digits |
| LibFormatters.DigitsOfGrupoCpf | frontend/src/lib/formatters.ts:3 | grouping an 11-digit CPF keeps its digits in order |
| LibFormatters.DigitsOfGrupoCelular | frontend/src/lib/formatters.ts:9 | grouping an 11-digit phone keeps its digits in order |
| LibFormatters.DigitsOfGrupoFixo | frontend/src/lib/formatters.ts:11 | grouping a 10-digit phone keeps its digits in order |
| LibFormatters.FormatarCpfDigits | frontend/src/lib/formatters.ts:1-4 | stripping formatarCPF's output gives the digits of its input |
| LibFormatters.FormatarTelefoneDigits | frontend/src/lib/formatters.ts:6-12 | stripping formatarTelefone's output gives the digits of its input |
| LibFormatters.FormatarCpfIdempotente | frontend/src/lib/formatters.ts:1-4 | formatting a formatted CPF changes nothing |
| LibFormatters.FormatarTelefoneIdempotente | frontend/src/lib/formatters.ts:6-12 | formatting a formatted phone changes nothing |
| LibFormatters.FormatarCpfExemplo | frontend/src/lib/formatters.ts:1-4 | "12345678901" becomes "123.456.789-01" |
| LibFormatters.GrupoCpfExemplo | frontend/src/lib/formatters.ts:3 | the grouping of "12345678901" is "123.456.789-01" |
| LibFormatters.FormatarCpfOutroTamanho | frontend/src/lib/formatters.ts:2-3 | with other than 11 digits the anchored pattern does not match and the bare digits come back |
| UtilsFormatters.FirstRun | frontend/src/utils/formatters.ts:9 | the regex matches at the leftmost position where the digit run starts, and nowhere before it |
| UtilsFormatters.GrupoCep | frontend/src/utils/formatters.ts:17 | the grouped CEP is 9 characters with a dash at 5 |
| UtilsFormatters.FormatarCpf | frontend/src/utils/formatters.ts:8-10 | the input comes back unchanged exactly when it has no run of 11 digits; otherwise it grows by the three punctuation characters |
| UtilsFormatters.FormatarTelefone | frontend/src/utils/formatters.ts:12-14 | the input comes back unchanged exactly when it has no run of 11 digits; otherwise it grows by the four characters of "(", ") " and "-" |
| UtilsFormatters.FormatarCep | frontend/src/utils/formatters.ts:16-18 | the input comes back unchanged exactly when it has no run of 8 digits; otherwise it grows by the one dash |
| UtilsFormatters.SemSequenciaInalterado | frontend/src/utils/formatters.ts:8-14 | without a run of 11 digits, formatarCPF and formatarTelefone return their input |
| UtilsFormatters.TelefoneFixoInalterado | frontend/src/utils/formatters.ts:12-14 | a 10-character phone is returned unchanged, since the pattern needs 11 digits |
| UtilsFormatters.CpfPrimeiraSequencia | frontend/src/utils/formatters.ts:8-10 | the leftmost 11-digit run is grouped and the text around it is kept |
| UtilsFormatters.CpfSequenciaLonga | frontend/src/utils/formatters.ts:8-10 | a longer all-digit string has only its first 11 digits grouped |
| UtilsFormatters.FormatarCpfDigitsIguais | frontend/src/utils/formatters.ts:8-10 | formatarCPF only inserts punctuation: the digits are unchanged |
| UtilsFormatters.FormatarTelefoneDigitsIguais | frontend/src/utils/formatters.ts:12-14 | formatarTelefone only inserts punctuation |
| UtilsFormatters.FormatarCepDigitsIguais | frontend/src/utils/formatters.ts:16-18 | formatarCEP only inserts punctuation |
| Stats.CalculateClienteStats | frontend/src/utils/stats.ts:18-25 | the total is the list length; the three status counts never exceed it and add up to it when every status is one of the three |
| Stats.CalculateImovelStats | frontend/src/utils/stats.ts:27-34 | the total is the list length and rented plus available never exceed it |
| Stats.ClienteStatsVazio | frontend/src/utils/stats.ts:18-25 | an empty list gives all-zero counters |
| Stats.ImovelStatsVazio | frontend/src/utils/stats.ts:27-34 | an empty list gives all-zero counters |
| Stats.ClienteStatsUm | frontend/src/utils/stats.ts:18-25 | one client counts toward the total and toward its own status only |
| Stats.ImovelStatsUm | frontend/src/utils/stats.ts:27-34 | one property counts toward the total, its own status and adds its rent |
| Stats.ValorTotalNaoNegativo | frontend/src/utils/stats.ts:33 | with no negative rent the total rent is not negative |
| Stats.ClienteStatsConcat | frontend/src/utils/stats.ts:18-25 | the counters of two lists joined are the sums of their counters |
| Stats.ImovelStatsConcat | frontend/src/utils/stats.ts:27-34 | the counters and the rent total of two lists joined are the sums of theirs |
| ImoveisClient.Field | frontend/src/services/imoveis.ts:49-57 | reading a member gives its value, or undefined for a missing member or a non-object |
| ImoveisClient.Or | frontend/src/services/imoveis.ts:49-57 | a \|\| b is a when a is truthy and b otherwise |
| ImoveisClient.DefaultImovel | frontend/src/services/imoveis.ts:64-74 | the default record has exactly the nine members of Imovel |
| ImoveisClient.NormalizeImovel | frontend/src/services/imoveis.ts:37-62 | a falsy input gives the default record; otherwise each of the nine members keeps a truthy input value or takes its fallback, and no other member is kept |
| ImoveisClient.DefaultIndefinido | frontend/src/services/imoveis.ts:71 | the default record's status is "INDEFINIDO" |
| ImoveisClient.OrAbsorve | frontend/src/services/imoveis.ts:49-57 | applying the same fallback twice is the same as once |
| ImoveisClient.DefaultFixo | frontend/src/services/imoveis.ts:42-74 | the default record normalizes to itself |
| ImoveisClient.PadraoAusenteFixo | frontend/src/services/imoveis.ts:48-73 | each member of the default record is truthy, or (id, codigo, valorMensal) already equals the fallback normalizing would put there |
| ImoveisClient.NormalizeIdempotente | frontend/src/services/imoveis.ts:37-62 | normalizing a normalized record changes nothing |
| ImoveisClient.NormalizeDescartaExtras | frontend/src/services/imoveis.ts:48-58 | members outside Imovel, fotos among them, are dropped |
| ImoveisClient.ComoImovel | frontend/src/services/imoveis.ts:9-19 | the typed record keeps the object's code and status |
| ImoveisClient.NormalizeTipado | frontend/src/services/imoveis.ts:48-58 | when every truthy input member has its declared kind, the result is a well-formed Imovel |
| ImoveisClient.EnsureArray | frontend/src/services/imoveis.ts:31-34 | a falsy value gives [], an array itself, anything else a one-element array |
| ImoveisClient.Listar | frontend/src/services/imoveis.ts:94-187 | a failure or a body that is not an array gives []; an array body is normalized element by element |
| ImoveisClient.ListarPorStatus | frontend/src/services/imoveis.ts:134-147 | a failure gives []; otherwise ensureArray of the body, normalized element by element (listarDisponiveis at 238-247 is the same) |
| ImoveisClient.ListasComparadas | frontend/src/services/imoveis.ts:99-105 | both kinds of listing agree on an array body; a single object body is dropped by listarTodos and kept by listarPorStatus |
| ImoveisClient.ListasCompletas | frontend/src/services/imoveis.ts:105 | every listed record has exactly the nine members |
| ImoveisClient.Buscar | frontend/src/services/imoveis.ts:189-231 | a failed lookup or update gives the default record; otherwise the normalized body |
| ImoveisClient.Cadastrar | frontend/src/services/imoveis.ts:211-220 | the error is thrown again iff the request fails; otherwise the normalized body |
| ImoveisClient.AtualizarOculto | frontend/src/services/imoveis.ts:82-88 | the hidden first atualizar lets failures propagate, throws on a null body at `data.status`, and otherwise defaults the status to "DISPONIVEL" |
| ImoveisClient.Literal | frontend/src/services/imoveis.ts:76-248 | an object literal binds every key it writes and no other |
| ImoveisClient.LiteralUltimoVence | frontend/src/services/imoveis.ts:76-248 | a repeated key is bound by its last occurrence |
| ImoveisClient.BuscarPorCodigoEfetivo | frontend/src/services/imoveis.ts:77-81 | the literal binds buscarPorCodigo to the second, normalizing definition at 200-209 |
| ImoveisClient.AtualizarEfetivo | frontend/src/services/imoveis.ts:82-88 | the literal binds atualizar to the second, normalizing definition at 222-231 |
| ImoveisClient.ServicoEfetivo | frontend/src/services/imoveis.ts:77-88 | the members buscarPorCodigo and atualizar are the later normalizing versions at 200-209 and 222-231 |
| ImoveisClient.FalhaNaAtualizacao | frontend/src/services/imoveis.ts:222-231 | a failed update yields the default record, where the hidden version would throw |
| DataTable.TotalPages | frontend/src/components/data-table/DataTable.tsx:48 | the page count is the least number of pages that hold every row, and 0 exactly for no data |
| DataTable.PaginaContigua | frontend/src/components/data-table/DataTable.tsx:45-47 | page p is the contiguous run of at most n rows from (p-1)·n, clipped to the data |
| DataTable.PaginasPrefixo | frontend/src/components/data-table/DataTable.tsx:45-47 | pages 1 to k together are the first k·n rows |
| DataTable.PaginasParticionam | frontend/src/components/data-table/DataTable.tsx:45-48 | pages 1 to totalPages lay the whole data out once, in order |
| DataTable.AlemDaUltima | frontend/src/components/data-table/DataTable.tsx:45-47 | a page after the last one is empty |
| DataTable.Renderizar | frontend/src/components/data-table/DataTable.tsx:28-107 | "Carregando..." iff loading; otherwise a non-empty error is shown; otherwise the page's rows, the empty-row message iff no row, and the buttons disabled on page 1 and on page totalPages and leading to the pages either side |
| DataTable.CarregandoAntesDoErro | frontend/src/components/data-table/DataTable.tsx:37-43 | loading hides an error that is also set |
| DataTable.ProximaHabilitadaSemDados | frontend/src/components/data-table/DataTable.tsx:48-103 | with no data there are 0 pages, so on page 1 "Próxima" stays enabled and leads to page 2 |
| DataTable.BotoesNosExtremos | frontend/src/components/data-table/DataTable.tsx:87-103 | on the last page of non-empty data "Próxima" is disabled, on page 1 "Anterior" is, and page 1 has rows |
| DataTableStateHook.Inicial | frontend/src/hooks/useDataTableState.ts:23-37 | the first state is empty, not loading, no error, search "", status "TODOS", page 1, and itemsPerPage from the prop or 10 |
| DataTableStateHook.Comecada | frontend/src/hooks/useDataTableState.ts:41 | the first setState sets loading and clears the error, nothing else |
| DataTableStateHook.Concluida | frontend/src/hooks/useDataTableState.ts:42-68 | an array is stored and filtered with the current search and status; any other value gives "Nenhum item encontrado" and a throw "Erro ao carregar os itens", both with empty lists; loading ends false; filters and page are kept |
| DataTableStateHook.Filtrada | frontend/src/hooks/useDataTableState.ts:75-84 | with a filter and items, the filtered list is recomputed and the page reset to 1; otherwise nothing changes |
| DataTableStateHook.CargaTermina | frontend/src/hooks/useDataTableState.ts:39-69 | a load ends not loading; its error is null iff an array arrived; on failure both lists are empty |
| DataTableStateHook.RecargaIdempotente | frontend/src/hooks/useDataTableState.ts:98-100 | refreshing with the same outcome gives the same state |
| DataTableStateHook.CargaCoerente | frontend/src/hooks/useDataTableState.ts:39-84 | a load followed by the filter effect leaves the shown list equal to the filter of the items, and a non-empty filtered load on page 1 |
| DataTableStateHook.FiltroMantemCoerencia | frontend/src/hooks/useDataTableState.ts:75-92 | changing the search or the status, then the effect, keeps the shown list coherent and sends a non-empty list back to page 1 |
| DataTableStateHook.SemFiltroMostraTudo | frontend/src/hooks/useDataTableState.ts:48 | without a filter the shown list is the whole list |
| DataTableStateHook.DataTableState.constructor | frontend/src/hooks/useDataTableState.ts:28-37 | the hook's state starts as Inicial |
| DataTableStateHook.DataTableState.ComecarCarga | frontend/src/hooks/useDataTableState.ts:41 | the state becomes Comecada of the old state |
| DataTableStateHook.DataTableState.ConcluirCarga | frontend/src/hooks/useDataTableState.ts:44-68 | the state becomes Concluida of the old state and the fetch's outcome |
| DataTableStateHook.DataTableState.LoadItems | frontend/src/hooks/useDataTableState.ts:39-69 | the state becomes Carregada of the old state |
| DataTableStateHook.DataTableState.Refresh | frontend/src/hooks/useDataTableState.ts:98-100 | refresh has exactly loadItems' effect |
| DataTableStateHook.DataTableState.AplicarFiltro | frontend/src/hooks/useDataTableState.ts:75-84 | the state becomes Filtrada of the old state |
| DataTableStateHook.DataTableState.SetSearchTerm | frontend/src/hooks/useDataTableState.ts:86-88 | only the search term changes |
| DataTableStateHook.DataTableState.SetStatusFilter | frontend/src/hooks/useDataTableState.ts:90-92 | only the status filter changes |
| DataTableStateHook.DataTableState.SetCurrentPage | frontend/src/hooks/useDataTableState.ts:94-96 | only the page changes |
| AsyncListHook.ErroDe | frontend/src/hooks/useAsyncList.ts:32 | a thrown Error is kept; any other thrown value becomes Error("Erro ao carregar itens") |
| AsyncListHook.Inicial | frontend/src/hooks/useAsyncList.ts:16-23 | the first render holds initialItems or [], loading, no error |
| AsyncListHook.Comecada | frontend/src/hooks/useAsyncList.ts:27-28 | a load starts loading with no error and the same items |
| AsyncListHook.Concluida | frontend/src/hooks/useAsyncList.ts:29-36 | success stores the data; failure keeps the items and records the error; loading ends false |
| AsyncListHook.CargaTermina | frontend/src/hooks/useAsyncList.ts:25-37 | a load ends not loading; success gives exactly the data with no error; failure keeps the old items with an error |
| AsyncListHook.MensagemDaFalha | frontend/src/hooks/useAsyncList.ts:32 | a non-Error throw reports the generic message and an Error its own |
| AsyncListHook.FalhaMantemItens | frontend/src/hooks/useAsyncList.ts:30-33 | a failed refresh after a successful load still shows the loaded items |
| AsyncListHook.AsyncList.constructor | frontend/src/hooks/useAsyncList.ts:21-23 | the three cells start as Inicial |
| AsyncListHook.AsyncList.ComecarCarga | frontend/src/hooks/useAsyncList.ts:27-28 | the cells become Comecada of the old ones |
| AsyncListHook.AsyncList.ConcluirCarga | frontend/src/hooks/useAsyncList.ts:29-36 | the cells become Concluida of the old ones and the outcome |
| AsyncListHook.AsyncList.LoadItems | frontend/src/hooks/useAsyncList.ts:25-37 | the cells become Carregada of the old ones; refresh is the same function (line 47) |
| ListPage.IncluiASiMesmo | frontend/src/app/admin/dashboard/clientes/page.tsx:48-53 | a field always contains itself, ignoring case |
| ListPage.IncluiIgnoraCaixa | frontend/src/app/admin/dashboard/clientes/page.tsx:48-53 | the search is lowercased before the test, so a field contains a search exactly when it contains the lowercased search |
| ListPage.IncluiVazio | frontend/src/app/admin/dashboard/clientes/page.tsx:48-53 | the empty search is contained in every field |
| ListPage.StatsAtualizadas | frontend/src/app/admin/dashboard/clientes/page.tsx:62-66 | the stats are recomputed from a non-empty list and kept as they were for an empty one |
| ListPage.AoAlterarStatus | frontend/src/app/admin/dashboard/clientes/page.tsx:68-76 | the table reloads iff the status change succeeded; otherwise the page's error toast shows |
| ListPage.Selecionada | frontend/src/app/admin/dashboard/clientes/page.tsx:78-84 | selecting a row opens the modal with that row selected |
| ListPage.Confirmada | frontend/src/app/admin/dashboard/clientes/page.tsx:86-100 | without a selection nothing happens; otherwise excluir is called on the selection, refresh only on success, and in every case the modal closes and the selection clears |
| ListPage.ConfirmarSempreFecha | frontend/src/app/admin/dashboard/clientes/page.tsx:96-99 | a confirmation that acted always leaves the modal closed with nothing selected |
| ListPage.SelecionarEConfirmar | frontend/src/app/admin/dashboard/clientes/page.tsx:78-100 | selecting a row and confirming deletes exactly that row |
| ListPage.ConfirmarDuasVezes | frontend/src/app/admin/dashboard/clientes/page.tsx:86-87 | a second confirmation does nothing |
| ListPage.ModalExclusao.constructor | frontend/src/app/admin/dashboard/clientes/page.tsx:23-24 | the modal starts closed with nothing selected |
| ListPage.ModalExclusao.HandleDelete | frontend/src/app/admin/dashboard/clientes/page.tsx:78-84 | the modal's state becomes Selecionada of the old state |
| ListPage.ModalExclusao.ConfirmDelete | frontend/src/app/admin/dashboard/clientes/page.tsx:86-100 | the modal's state and the action taken are Confirmada of the old state |
| ClientesPage.FilterItems | frontend/src/app/admin/dashboard/clientes/page.tsx:46-59 | the result is a subsequence of the list, and a client is in it iff it matches the search in nome, cpf, telefone or e-mail and the status filter |
| ClientesPage.MatchesSearch | frontend/src/app/admin/dashboard/clientes/page.tsx:49-53 | a client matches iff the search is empty or one of nome, cpf, telefone and the email, when present, contains it ignoring case |
| ClientesPage.BuscaIgnoraCaixa | frontend/src/app/admin/dashboard/clientes/page.tsx:48-53 | the case of the search never changes which clients match |
| ClientesPage.SemCriterioMantemTodos | frontend/src/app/admin/dashboard/clientes/page.tsx:49-55 | an empty search with status "TODOS" keeps every client |
| ClientesPage.EncontradoPeloCpf | frontend/src/app/admin/dashboard/clientes/page.tsx:51 | a client is found by its own CPF |
| ClientesPage.FiltroDeVazio | frontend/src/app/admin/dashboard/clientes/page.tsx:46-59 | the filter finds nothing in an empty list |
| ClientesPage.StatsDaPagina | frontend/src/app/admin/dashboard/clientes/page.tsx:62-66 | the stats are kept for an empty list and are otherwise `calculateClienteStats` of the list, which counts every client |
| ClientesPage.Encontrar | frontend/src/app/admin/dashboard/clientes/page.tsx:79 | find gives a listed client with that id iff one exists |
| ClientesPage.EncontrarPrimeiro | frontend/src/app/admin/dashboard/clientes/page.tsx:79 | find returns the first client with the id |
| ClientesPage.HandleDelete | frontend/src/app/admin/dashboard/clientes/page.tsx:78-84 | an unknown id leaves the modal as it was; a known one opens it with the first client having that id |
| ClientesPage.ConfirmDelete | frontend/src/app/admin/dashboard/clientes/page.tsx:86-100 | with a selection, excluir is called with the client's id, refresh only on success, and the modal closes; without one nothing happens |
| PagamentosPage.MatchesSearch | frontend/src/app/admin/dashboard/pagamentos/page.tsx:54-60 | the test throws exactly when the search is non-empty, no optional-chained field matches it and the payment method is null; otherwise it holds iff the search is empty or one of the fields contains it |
| PagamentosPage.FilterItems | frontend/src/app/admin/dashboard/pagamentos/page.tsx:52-67 | the filter throws iff some payment's search test throws; otherwise it keeps, in order, exactly the payments that pass the search, status and method tests |
| PagamentosPage.SemCriterioMantemTodos | frontend/src/app/admin/dashboard/pagamentos/page.tsx:52-67 | an empty search with 'TODOS' on both filters keeps every payment and throws on none |
| PagamentosPage.FormaNulaLanca | frontend/src/app/admin/dashboard/pagamentos/page.tsx:60 | a search that reaches a null `formaPagamento` makes the filter throw |
| PagamentosPage.PagamentosPageState.constructor | frontend/src/app/admin/dashboard/pagamentos/page.tsx:22-50 | the page starts with method filter 'TODOS', the table hook's initial state and a closed modal |
| PagamentosPage.PagamentosPageState.SetFormaPagamentoFilter | frontend/src/app/admin/dashboard/pagamentos/page.tsx:27 | changing the method filter leaves the table state as it was, since the hook's filter effect does not depend on it |
| PagamentosPage.PagamentosPageState.HandleDelete | frontend/src/app/admin/dashboard/pagamentos/page.tsx:86-89 | the modal opens with the given id selected |
| PagamentosPage.PagamentosPageState.ConfirmDelete | frontend/src/app/admin/dashboard/pagamentos/page.tsx:91-105 | the confirmation follows the shared delete protocol, with a falsy id counting as no selection |
| PagamentosPage.FiltroDeFormaDefasado | frontend/src/app/admin/dashboard/pagamentos/page.tsx:27 | after the method filter moves to 'BOLETO' a PIX payment the filter would now drop is still shown |
| PagamentosPage.IdZeroNaoExclui | frontend/src/app/admin/dashboard/pagamentos/page.tsx:91-92 | a selected id 0 opens the modal, but confirming it deletes nothing and leaves the modal open |
| PagamentosPage.HandleStatusChange | frontend/src/app/admin/dashboard/pagamentos/page.tsx:76-84 | the table reloads iff the status change succeeded; otherwise the payment error toast shows |
| ImoveisPage.FilterItems | frontend/src/app/admin/dashboard/imoveis/page.tsx:47-61 | the filter keeps, in order, exactly the properties that pass the search, status and type tests |
| ImoveisPage.MatchesSearch | frontend/src/app/admin/dashboard/imoveis/page.tsx:50-54 | a property matches iff the search is empty or one of nome, codigo, endereco and tipo contains it ignoring case |
| ImoveisPage.BuscaIgnoraCaixa | frontend/src/app/admin/dashboard/imoveis/page.tsx:49-54 | the case of the search never changes which properties match |
| ImoveisPage.TipoSempreNeutro | frontend/src/app/admin/dashboard/imoveis/page.tsx:25-57 | with the page's fixed type filter 'TODOS', the type test removes no property |
| ImoveisPage.EncontradoPeloCodigo | frontend/src/app/admin/dashboard/imoveis/page.tsx:50-52 | every listed property is found by its own code |
| ImoveisPage.StatsDaPagina | frontend/src/app/admin/dashboard/imoveis/page.tsx:64-68 | an empty list leaves the stats as they were; otherwise they are `calculateImovelStats` of the list: the total is its length, and rented plus available never exceed it |
| ImoveisPage.Encontrar | frontend/src/app/admin/dashboard/imoveis/page.tsx:72 | a property is found iff one in the list has the code, and the one found is the first listed property with that code |
| ImoveisPage.PayloadDeStatus | frontend/src/app/admin/dashboard/imoveis/page.tsx:72 | the body is the listed property with the new status when the code is listed, and only the new status otherwise |
| ImoveisPage.PayloadSoMudaStatus | frontend/src/app/admin/dashboard/imoveis/page.tsx:72 | the body differs from the listed property in its status alone |
| ImoveisPage.HandleStatusChange | frontend/src/app/admin/dashboard/imoveis/page.tsx:70-78 | the handler sends that body, then either reloads the table or shows the error toast |
| ImoveisPage.StatusChangeSempreRecarrega | frontend/src/app/admin/dashboard/imoveis/page.tsx:70-78 | since the update call swallows every failure, the handler reloads whatever the server answered, where a throwing call would have shown the toast |
| ImoveisPage.ImoveisPageState.constructor | frontend/src/app/admin/dashboard/imoveis/page.tsx:23-24 | the delete modal starts closed with nothing selected |
| ImoveisPage.ImoveisPageState.HandleDelete | frontend/src/app/admin/dashboard/imoveis/page.tsx:80-83 | the modal opens with the given code selected |
| ImoveisPage.ImoveisPageState.ConfirmDelete | frontend/src/app/admin/dashboard/imoveis/page.tsx:85-99 | the confirmation follows the shared delete protocol, an empty code counting as no selection, and a deletion leaves the modal closed and empty |
| ContratosPage.FilterItems | frontend/src/app/admin/dashboard/contratos/page.tsx:49-62 | the filter keeps, in order, exactly the leases that pass the search and status tests |
| ContratosPage.MatchesSearch | frontend/src/app/admin/dashboard/contratos/page.tsx:52-56 | a lease matches iff the search is empty or the nome or cpf of its client, or the nome or codigo of its property, contains it ignoring case, an absent summary offering no field |
| ContratosPage.BuscaIgnoraCaixa | frontend/src/app/admin/dashboard/contratos/page.tsx:51-56 | the case of the search never changes which leases match |
| ContratosPage.SemResumoSoComBuscaVazia | frontend/src/app/admin/dashboard/contratos/page.tsx:52-56 | a lease with neither client nor property summary matches iff the search is empty |
| ContratosPage.SemCriterioMantemTodos | frontend/src/app/admin/dashboard/contratos/page.tsx:49-62 | an empty search with status 'TODOS' keeps every lease |
| ContratosPage.HandleStatusChange | frontend/src/app/admin/dashboard/contratos/page.tsx:71-79 | the table reloads iff the status change succeeded; otherwise the lease error toast shows |
| ContratosPage.ContratosPageState.constructor | frontend/src/app/admin/dashboard/contratos/page.tsx:25-26 | the delete modal starts closed with nothing selected |
| ContratosPage.ContratosPageState.HandleDelete | frontend/src/app/admin/dashboard/contratos/page.tsx:81-84 | the modal opens with the given id selected |
| ContratosPage.ContratosPageState.ConfirmDelete | frontend/src/app/admin/dashboard/contratos/page.tsx:86-100 | the confirmation follows the shared delete protocol, a falsy id counting as no selection |
| Sorting.OrdenarPor | frontend/src/app/page.tsx:63-74 | `sort` with a key-difference comparator leaves the array ordered by ascending key and a permutation of what it held |
| Sorting.PrefixoTemMenoresChaves | frontend/src/hooks/use-dashboard-data.ts:66-73 | in a sorted list, every element of a prefix has a key no larger than any element after it |
| HomePage.Filtrados | frontend/src/app/page.tsx:38-60 | the filtered list is a subsequence of the fetched one holding exactly the properties that pass the search, type and both price tests, each test applied only when its input is non-empty |
| HomePage.FiltrarEOrdenar | frontend/src/app/page.tsx:37-77 | the effect's result is a permutation of the filtered list, ordered by the key the `ordenacao` value selects ('recent' and unknown values by descending id) |
| HomePage.ResultadoFiltrado | frontend/src/app/page.tsx:37-77 | any permutation of the filtered list holds exactly the fetched properties that pass every filter |
| HomePage.PrecoInvalidoEsvazia | frontend/src/app/page.tsx:55-57 | a minimum price that converts to NaN leaves no property |
| HomePage.LimitesInclusivos | frontend/src/app/page.tsx:55-60 | a rent equal to either price bound passes both |
| HomePage.HomeState.constructor | frontend/src/app/page.tsx:11-14 | the page starts loading, with no error and empty lists |
| HomePage.HomeState.FetchImoveis | frontend/src/app/page.tsx:21-35 | loading ends; a successful fetch fills both lists, a failed one sets the error and keeps the lists |
| HomePage.HomeState.AplicarFiltros | frontend/src/app/page.tsx:37-77 | the shown list becomes the sorted permutation of the filtered fetched list, the fetched list itself unchanged |
| FormState.MensagemOu | frontend/src/app/admin/dashboard/clientes/cadastrar/components/CadastrarClienteForm.tsx:88 | `mensagem \|\| padrao` gives the message when it is present and non-empty, and the default otherwise |
| FormState.EstadoEnvio.constructor | frontend/src/app/admin/dashboard/imoveis/cadastrar/components/CadastrarImovelForm.tsx:43 | a form starts not loading, with no toast and no navigation |
| FormState.EstadoEnvio.Iniciar | frontend/src/app/admin/dashboard/imoveis/cadastrar/components/CadastrarImovelForm.tsx:62 | `setLoading(true)` sets loading |
| FormState.EstadoEnvio.Avisar | frontend/src/app/admin/dashboard/imoveis/cadastrar/components/CadastrarImovelForm.tsx:74 | a toast is appended to those already shown |
| FormState.EstadoEnvio.Navegar | frontend/src/app/admin/dashboard/imoveis/cadastrar/components/CadastrarImovelForm.tsx:75 | `router.push` records the destination |
| FormState.EstadoEnvio.Concluir | frontend/src/app/admin/dashboard/imoveis/cadastrar/components/CadastrarImovelForm.tsx:79-81 | the `finally` block clears loading |
| ClienteForm.Problemas | frontend/src/app/admin/dashboard/clientes/cadastrar/components/CadastrarClienteForm.tsx:29-37 | the schema finds no problem iff nome has at least 3 characters, the email is valid, the CPF has exactly 11, the phone 10 or 11, the address at least 5 and the status, if chosen, is one of the three |
| ClienteForm.Validar | frontend/src/app/admin/dashboard/clientes/cadastrar/components/CadastrarClienteForm.tsx:29-37 | parsing succeeds iff there is no problem, keeps every field and defaults the status to 'ATIVO'; otherwise it reports every problem found |
| ClienteForm.PadraoInvalido | frontend/src/app/admin/dashboard/clientes/cadastrar/components/CadastrarClienteForm.tsx:53-61 | the default values fail the schema, among others on nome and CPF |
| ClienteForm.AplicarMascara | frontend/src/app/admin/dashboard/clientes/cadastrar/components/CadastrarClienteForm.tsx:183-205 | the birth-date input handler produces the mask of the digits typed |
| ClienteForm.MascaraGuardaDigitos | frontend/src/app/admin/dashboard/clientes/cadastrar/components/CadastrarClienteForm.tsx:184-203 | removing the slashes from the mask gives back the first eight digits typed |
| ClienteForm.MascaraIdempotente | frontend/src/app/admin/dashboard/clientes/cadastrar/components/CadastrarClienteForm.tsx:183-205 | masking an already masked date changes nothing |
| ClienteForm.MascaraCompleta | frontend/src/app/admin/dashboard/clientes/cadastrar/components/CadastrarClienteForm.tsx:195-203 | eight digits give DD/MM/AAAA, with slashes at positions 2 and 5 and the digits in order between them |
| ClienteForm.MascaraExemplo | frontend/src/app/admin/dashboard/clientes/cadastrar/components/CadastrarClienteForm.tsx:183-205 | the digits 01022025 are shown as 01/02/2025 |
| ClienteForm.ConverterData | frontend/src/app/admin/dashboard/clientes/cadastrar/components/CadastrarClienteForm.tsx:68-69 | the conversion throws iff the date has fewer than two slash-separated parts |
| ClienteForm.ConverterDataPartes | frontend/src/app/admin/dashboard/clientes/cadastrar/components/CadastrarClienteForm.tsx:68-69 | DD/MM/YYYY becomes YYYY-MM-DD, with day and month padded to two digits |
| ClienteForm.ConverterExemplo | frontend/src/app/admin/dashboard/clientes/cadastrar/components/CadastrarClienteForm.tsx:68-69 | 1/2/2025 becomes 2025-02-01 |
| ClienteForm.MascaraEConversao | frontend/src/app/admin/dashboard/clientes/cadastrar/components/CadastrarClienteForm.tsx:68-69 | a complete mask converts to the ISO date of its digits |
| ClienteForm.DataVaziaLanca | frontend/src/app/admin/dashboard/clientes/cadastrar/components/CadastrarClienteForm.tsx:59-69 | the default empty birth date makes the submit throw before any request |
| ClienteForm.RemoverBarraD | frontend/src/app/admin/dashboard/clientes/cadastrar/components/CadastrarClienteForm.tsx:72 | the literal pattern removes only backslash-D pairs, so the result is never longer |
| ClienteForm.SemBarraInalterado | frontend/src/app/admin/dashboard/clientes/cadastrar/components/CadastrarClienteForm.tsx:72-78 | without a backslash, the replace leaves the text, punctuation included, as it was |
| ClienteForm.AoDigitar | frontend/src/app/admin/dashboard/clientes/cadastrar/components/CadastrarClienteForm.tsx:136-141 | an input without a backslash is accepted unchanged iff it has at most 11 characters, and an accepted value never has more |
| ClienteForm.CpfFormatadoRecusado | frontend/src/app/admin/dashboard/clientes/cadastrar/components/CadastrarClienteForm.tsx:136-141 | a CPF typed with dots and a dash is refused, not cleaned |
| ClienteForm.Corpo | frontend/src/app/admin/dashboard/clientes/cadastrar/components/CadastrarClienteForm.tsx:68-80 | the request body exists iff the date converts; it carries the cleaned CPF as both cpf and password, the cleaned phone, the converted date and the other fields unchanged |
| ClienteForm.OnSubmit | frontend/src/app/admin/dashboard/clientes/cadastrar/components/CadastrarClienteForm.tsx:64-92 | the sent body is that of the data; a date that throws or a failed request shows the error toast (the server's message first) and stays, a success shows the success toast and goes to the client list; loading ends in every case |
| ImovelForm.Problemas | frontend/src/app/admin/dashboard/imoveis/cadastrar/components/CadastrarImovelForm.tsx:28-39 | the schema finds no problem iff the title has at least 3 characters, the description at least 10, the address at least 5 and the type and status are in their enums |
| ImovelForm.Validar | frontend/src/app/admin/dashboard/imoveis/cadastrar/components/CadastrarImovelForm.tsx:28-39 | parsing succeeds iff there is no problem and keeps the values; otherwise it reports every problem found |
| ImovelForm.PadraoSoFalhaNosTextos | frontend/src/app/admin/dashboard/imoveis/cadastrar/components/CadastrarImovelForm.tsx:47-58 | the defaults pass both enums and fail exactly the three minimum lengths |
| ImovelForm.OnSubmit | frontend/src/app/admin/dashboard/imoveis/cadastrar/components/CadastrarImovelForm.tsx:61-82 | an OK response shows the success toast and goes to the property list; a rejection or a response that is not OK shows the error toast and stays; loading ends in every case |
| NovoContrato.Inicial | frontend/src/app/admin/dashboard/contratos/novo/page.tsx:54-64 | the form starts with no client or property, the period from today to a year later, rent 0, payment day 5, fee 10, deposit 0 and empty notes |
| NovoContrato.Encontrar | frontend/src/app/admin/dashboard/contratos/novo/page.tsx:67 | a property is found iff the id converts to a number and a listed property has it, and the one found is the first listed property with that id |
| NovoContrato.ComImovel | frontend/src/app/admin/dashboard/contratos/novo/page.tsx:66-75 | an unlisted property leaves the form as it was; a listed one sets the property id and copies its rent, nothing else changing |
| NovoContrato.ComCampo | frontend/src/app/admin/dashboard/contratos/novo/page.tsx:77-85 | the named field gets the value, converted to a number for the four numeric fields, and every other field and both ids keep theirs |
| NovoContrato.MesmosCampos | frontend/src/app/admin/dashboard/contratos/novo/page.tsx:54-64 | a form is determined by its fields and its two ids |
| NovoContrato.ComCampoSemMudanca | frontend/src/app/admin/dashboard/contratos/novo/page.tsx:77-85 | typing the value a field already holds leaves the form as it was |
| NovoContrato.NovoContratoPage.constructor | frontend/src/app/admin/dashboard/contratos/novo/page.tsx:24-64 | the page starts with the initial form, not loading, with no toast or navigation |
| NovoContrato.NovoContratoPage.SelecionarCliente | frontend/src/app/admin/dashboard/contratos/novo/page.tsx:166 | choosing a client sets the client id to the number of the value and changes nothing else |
| NovoContrato.NovoContratoPage.HandleImovelChange | frontend/src/app/admin/dashboard/contratos/novo/page.tsx:66-75 | the form becomes its property-change update |
| NovoContrato.NovoContratoPage.HandleInputChange | frontend/src/app/admin/dashboard/contratos/novo/page.tsx:77-85 | the form becomes its field-change update |
| NovoContrato.NovoContratoPage.HandleSubmit | frontend/src/app/admin/dashboard/contratos/novo/page.tsx:87-134 | a lease is created iff the required fields are truthy and the property is available, with the form and status 'ATIVO'; a missing field, an unavailable property, a failed availability check and a failed creation each show their own toast and stay; a creation shows the success toast and goes to the lease list; loading ends in every case |
| NovoContrato.InicialIncompleto | frontend/src/app/admin/dashboard/contratos/novo/page.tsx:54-94 | submitting the initial form at once is refused |
| NovoContrato.IdZeroRecusado | frontend/src/app/admin/dashboard/contratos/novo/page.tsx:66-94 | a listed property with id 0 is selected but then counts as missing |
| NovoContrato.Renderizar | frontend/src/app/admin/dashboard/contratos/novo/page.tsx:140-146 | the form shows iff neither list is loading or failed; loading shows iff a list is loading, and the error screen only when a list failed |
| DashboardData.TotaisDe | frontend/src/hooks/use-dashboard-data.ts:55-101 | each total counts the payments with its status and sums their amounts |
| DashboardData.TotaisConcat | frontend/src/hooks/use-dashboard-data.ts:90-101 | totals over two lists of payments add up |
| DashboardData.TotaisDisjuntos | frontend/src/hooks/use-dashboard-data.ts:55-63 | the pending, overdue and received counts together never exceed the number of payments |
| DashboardData.TipoDe | frontend/src/hooks/use-dashboard-data.ts:75 | an activity is 'Pagamento Recebido' iff its payment is PAGO, and 'Pagamento Pendente' otherwise |
| DashboardData.AtividadeDe | frontend/src/hooks/use-dashboard-data.ts:74-82 | a payment yields an activity iff it has a property; the activity keeps its type, amount, date and property |
| DashboardData.Atividades | frontend/src/hooks/use-dashboard-data.ts:74-82 | the map throws iff one payment has no property; otherwise it yields one activity per payment, in order |
| DashboardData.Carregar | frontend/src/hooks/use-dashboard-data.ts:40-104 | the fetched array ends ordered most recent first and a permutation of what it held; the property and payment totals are those of the data; the activities are those of the first five payments, and the query throws iff one of them has no property |
| DashboardData.RecentesSaoOsMaisNovos | frontend/src/hooks/use-dashboard-data.ts:66-73 | at most five activities are shown, and no payment left out is more recent than one shown |
| DashboardData.TotaisNaoDependemDaOrdem | frontend/src/hooks/use-dashboard-data.ts:55-73 | totals of two permutations of the payments are equal, so the in-place sort does not change them |
| DashboardData.TotaisSemUm | frontend/src/hooks/use-dashboard-data.ts:90-101 | removing one payment removes its share from the totals |
| ClienteDashboard.ComDuracao | frontend/src/hooks/use-cliente-dashboard-data.ts:131-150 | a lease gains the length in months that `duracao` gives, or 0 where `duracao` is None, which stands for the `catch` branch; nothing else changes |
| ClienteDashboard.Somar | frontend/src/hooks/use-cliente-dashboard-data.ts:159-171 | the reduce gives the sums of the pending and overdue counts and values over the grouped payments |
| ClienteDashboard.Montar | frontend/src/hooks/use-cliente-dashboard-data.ts:128-184 | the active leases are exactly those with status 'ATIVO', each with a length, their count is the total, and the totals are those of the grouped payments whose lease id is one of them |
| ClienteDashboard.Consultar | frontend/src/hooks/use-cliente-dashboard-data.ts:94-199 | one attempt of `queryFn`: no user id, or id 0, fails as not authenticated; a failed request fails with the server's message, its error or the default; a success has both data and is built from them |
| ClienteDashboard.ConsultarComRetentativa | frontend/src/hooks/use-cliente-dashboard-data.ts:185-213 | with `retry: 1` a failed first attempt is followed by a second one whose outcome is the result; the query succeeds exactly when one of the two attempts does; each failed attempt toasts its error, so a failure ends with both errors toasted in order and a success after a failure with one |
| ClienteDashboard.FalhaPersistenteAvisaDuasVezes | frontend/src/hooks/use-cliente-dashboard-data.ts:185-213 | a failure the retry meets again is toasted twice and is the error the page gets |
| ClienteDashboard.DadosInvalidos | frontend/src/hooks/use-cliente-dashboard-data.ts:123-126 | complete lease data with missing grouped data fails with the invalid-data message |
| ClienteDashboard.AlugueisNulosFalhamAntes | frontend/src/hooks/use-cliente-dashboard-data.ts:112-126 | missing lease data fails in the logging loop, before the data check |
| ClienteDashboard.AgrupadoAlheioNaoConta | frontend/src/hooks/use-cliente-dashboard-data.ts:152-156 | a grouped entry whose lease is not one of the client's active ones changes no total |
| ClienteDashboard.AgrupadoDoClienteSoma | frontend/src/hooks/use-cliente-dashboard-data.ts:152-171 | a grouped entry of an active lease adds its pending and overdue counts and values to the totals |
| ClienteDashboard.DuracaoPadrao | frontend/src/hooks/use-cliente-dashboard-data.ts:143-148 | a lease for which `duracao` is None, the `catch` branch, is listed with length 0 |
| Middleware.Decidir | frontend/src/middleware.ts:4-28 | a request passes iff its path is public, or it has a token and either is outside '/dashboard' or has a user type; every other request goes to '/login' |
| Middleware.BarraFinalNaoEPublica | frontend/src/middleware.ts:6-7 | the public paths match exactly: without a token '/login' passes but '/login/' is redirected |
| Middleware.DestinoEPublico | frontend/src/middleware.ts:6-16 | a redirect's target is a path the filter lets through, so it never redirects twice |
| Middleware.Responder | frontend/src/middleware.ts:30-40 | paths outside the matcher pass; the others get the filter's decision |
| Middleware.EstaticosSemToken | frontend/src/middleware.ts:30-40 | static assets and the favicon pass without a token |
| ProtectedRoute.Redirecionamento | frontend/src/components/protected-route.tsx:16-30 | no user type goes to '/login'; a user type not allowed goes to the admin dashboard for 'admin' and to the client home otherwise; an allowed one stays |
| ProtectedRoute.MostraFilhos | frontend/src/components/protected-route.tsx:32-36 | the children show iff the user type is truthy and allowed |
| ProtectedRoute.MostraOuRedireciona | frontend/src/components/protected-route.tsx:16-36 | the guard shows its children exactly when its effect does not navigate |
| ProtectedRoute.AdminVaiParaSeuPainel | frontend/src/components/protected-route.tsx:22-29 | an admin on a page that excludes admins goes to the admin dashboard, whose own guard lets them in |
| RoleContent.Renderizar | frontend/src/components/role-content.tsx:12-20 | the children show iff the user type is truthy and among the roles; otherwise the fallback, or nothing without one |
| RoleContent.SemUsuarioMostraFallback | frontend/src/components/role-content.tsx:15-16 | without a user the fallback shows, whatever the roles |
| StatusBadge.Procurar | frontend/src/components/status-badge/StatusBadge.tsx:35 | a status configuration is found iff the map has an entry with that key, and the one found is that entry's |
| StatusBadge.Configuracao | frontend/src/components/status-badge/StatusBadge.tsx:35 | a status in the map uses its configuration; an unknown one shows itself with color 'default' |
| StatusBadge.Classes | frontend/src/components/status-badge/StatusBadge.tsx:36 | a known color gives its classes, and any other the default ones |
| StatusBadge.Opcoes | frontend/src/components/status-badge/StatusBadge.tsx:52-60 | the menu has one item per map entry, in order, with its key, label and classes |
| StatusBadge.Renderizar | frontend/src/components/status-badge/StatusBadge.tsx:34-64 | the badge shows the label and classes of the status's configuration; it is a plain badge iff there is no change handler, and a menu of the entries otherwise |
| StatusBadge.EscolhaDevolveAChave | frontend/src/components/status-badge/StatusBadge.tsx:52-56 | with distinct keys, choosing the k-th option hands back its key, whose configuration is that entry's |
| StatusBadge.ProcurarChaveUnica | frontend/src/components/status-badge/StatusBadge.tsx:35 | with distinct keys, looking up an entry's key finds that entry |
| StatusBadge.StatusDesconhecido | frontend/src/components/status-badge/StatusBadge.tsx:35-36 | a status not in the map shows itself with the default classes |
| StatusBadge.CorDesconhecida | frontend/src/components/status-badge/StatusBadge.tsx:36-56 | an unknown color falls back to the default classes on the badge but prints 'undefined' in its menu item |
| NavUser.PalavrasVaziasNaoContam | frontend/src/components/nav-user.tsx:33-40 | empty words, as from repeated spaces, add nothing to the initials |
| NavUser.UmaLetraPorPalavra | frontend/src/components/nav-user.tsx:33-37 | joining the first letters gives one letter per non-empty word and none for an empty one |
| NavUser.GetInitials | frontend/src/components/nav-user.tsx:33-40 | the initials have one letter per non-empty word of the name, but never more than two |
| NavUser.IniciaisDeDuasPalavras | frontend/src/components/nav-user.tsx:33-40 | a two-word name gives the uppercased first letters of its words |
| NavUser.MariaSilva | frontend/src/components/nav-user.tsx:33-40 | 'Maria Silva' gives 'MS' |
| NavUser.Renderizar | frontend/src/components/nav-user.tsx:42-43 | nothing renders without a user; otherwise the card shows the user's initials, name and e-mail |

## Left out

- Clocks and dates: `LocalDate.now()`, `new Date()` and date-fns `format` come in as parameters ("today", or today's date as a string). `differenceInMonths`/`addDays` is the parameter `duracao`, and `getTime` is a parameter. A date JavaScript parses to NaN is not represented.
- Foreign primitives are functions passed in:
  - BCrypt encoding;
  - `UUID.randomUUID()`;
  - JWT validation and `getUserIdFromToken`;
  - `UsuarioService.loadUserById`;
  - the `@Email` check and zod's `.email()`;
  - JavaScript's `Number(...)`, which gives `None` for NaN.
- Text: `toLowerCase`/`toUpperCase` act on ASCII letters only. Lengths are counted in characters, not UTF-16 code units.
- Money: `Double`/`number` amounts are whole cents. Floating point, `toFixed`, `Intl.NumberFormat` and `toLocaleDateString` are left to the display. The `parseFloat`/`parseInt` transforms of the property form are left out.
- HTTP and REST plumbing is left out: axios, interceptors, the controllers other than `PagamentoController`, and Spring security and CORS configuration. The front end's requests are parameters of their outcome.
- `PagamentoService.criarTodos`, `criar`, `atualizar`, `alterarStatus` and `alterarFormaPagamento` are called but not shown. `criarTodos` is taken to save every payment of the list, and the others are not modelled.
- `calculatePagamentoStats` and `calculateContratoStats` are imported by the payment and lease pages but absent from utils/stats.ts, so those pages' stats effects are not modelled.
- Cascades and JPA mechanics: the cascade of `Aluguel.pagamentos` is modelled where `excluir` deletes a lease, the only place a lease is deleted; the cascade of `Pagamento.historico`, which would take a client's shared history with a deleted payment, is not modelled. When a transaction rolls back an insert (`AluguelService.SalvarComPlano`, `PagamentoService.AnexarOuDesfazer`), the model also puts the id counter back, where a real `IDENTITY` column does not reuse the ids it handed out. The database's `IDENTITY` ids are drawn from one shared counter. `@Transactional` is modelled only as "a failed operation leaves the tables unchanged".
- Logging (`console.*`, loggers), React effect scheduling, async races, the cron timing of the scheduler and concurrency are out of scope. So are the response timestamp of the exception handler and the runtime text of a JavaScript `TypeError`.
- Presentation is left out: JSX markup, layouts, the hard-coded dashboard pages, navigation, the display-only components, the admin render guard at the top of the client form, and `handleCancel` of the new-lease page.
- `Sorting.OrdenarPor`: states that the result is ordered and a permutation, but not the order of elements with equal keys, which `Array.prototype.sort` keeps stable.
- `PagamentoService.AnexarAoHistorico`: stores the history with the payment's id appended, as `HistoricoPagamentoService.atualizar` intends. As written, `HistoricoPagamento.pagamentos` is the inverse side of its mapping (`mappedBy = "historicoPagamento"`), so saving the history writes no link, and the stored history does not gain the payment.
- `PagamentoService.AnexarOuDesfazer`: promises the stored append of `AnexarAoHistorico`. As written, no link is persisted: `registrar` never sets `Pagamento.historicoPagamento`, the owning side of the mapping.
- `PagamentoService.RegistrarAtivo`: promises the stored append to the client's history, which the as-written mapping does not persist, for the same reason.
- `PagamentoService.Registrar`: promises the same stored append, which the as-written mapping does not persist.
- `ClienteService.Cadastrar`: stores an empty history tied to the new client, as the service intends. As written, `HistoricoPagamento` has no `cliente` field, so `setCliente` and the repository's `findByCliente` have nothing to refer to. Its NOT NULL `dataPagamento`, `valor` and `formaPagamento` columns would also refuse the empty row.
- `ClienteDashboard.ConsultarComRetentativa`: the hook's `enabled` gate, which keeps the query from running without a user id, and react-query's cache (`staleTime`) are not modelled; the function starts from a query that runs.
- `HomePage.FiltrarEOrdenar`: the order of properties with equal sort keys is not stated, for the same reason.
- `DashboardData.Carregar`: which of several payments with the same date come first, and so which five are shown on a tie, is not stated.
- `PagamentoController.ListarAgrupados`: the groups are a map from lease id to group, since the order of `HashMap.values()` is not specified.
- `DtoValidation.ViolacoesCliente`: the violations come in declaration order, where Bean Validation reports them in no fixed order. The same holds for the other `Violacoes*` members.
- `NavUser.GetInitials`: its own contract bounds the length only. What the initials are is stated by `NavUser.IniciaisDeDuasPalavras` and `NavUser.PalavrasVaziasNaoContam`.
