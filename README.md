# BRCcSis freight quotes, modelled in Dafny

BRCcSis is a freight-quote system. A consultant requests a quote for a
client (road, maritime or air transport). An operator accepts it and sends
back a price. The consultant then records the client's decision, and the
quote is finally closed. This project models the core of that system and
proves properties of the model:

- the `Cotacao` entity with its six statuses, its role and status guards,
  its nine transition methods and the append-only history ledger
  (`src/models/cotacao.py`);
- the daily quote numbering `COT-YYYYMMDD-NNNN`;
- the CNPJ and CEP validators;
- the decision logic of the two Flask blueprints: the legacy one
  (`src/routes/cotacao.py`: listing, creation, finalize, reassign,
  statistics) and the unified v1.3.3 one (`src/routes/cotacao_v133.py`:
  listing, operator accept and refuse, operator answer, the consultant's
  accept and decline, history);
- the dashboard arithmetic of the browser client (`src/static/js/api.js`).

Modules, one per file:

| file | module | models |
|---|---|---|
| common.dfy | Common | Option/Result, JSON scalars, Python truthiness, digit and text helpers |
| validators.dfy | Validators | `validar_cnpj` (weight loops), `validar_cep` |
| quote_model.dfy | QuoteModel | statuses, modes, guards, the rows, `Transicao` (the row-level specification of every transition), the class `Cotacao`, the class `Historico` |
| numbering.dfy | QuoteNumbering | `gerar_numero_cotacao` as written and corrected |
| query.dfy | Query | filtering, counting and ordering of a table snapshot |
| http.dfy | Http | response codes and reasons, the effect of a handler |
| creation.dfy | QuoteCreation | validation and construction in `POST /cotacoes` |
| routes_legacy.dfy | RoutesLegacy | legacy listing, finalize, reassign, statistics |
| routes_v133.dfy | RoutesV133 | the v1.3.3 listing and handlers |
| dashboard.dfy | Dashboard | `getEmpresas` filter cleaning, `processarDadosDashboard`, the label maps |

How the model is built:

- **Transitions.** Each transition method of the entity is a method of the
  class `Cotacao`. It checks its guard, assigns its fields one by one and
  appends one entry through `Historico.RegistrarMudanca`. It is proved to
  do exactly what the pure function `Transicao` says: on success, the new
  row and the appended entry; on error, no change at all. Every method
  keeps the lifecycle invariant `Invariante`.
- **Handlers.** Each handler that changes a quote is two members. A pure
  function `...Rota` gives the response and the model step. A method over
  the entity runs the early-return guards and the model method, and is
  proved to agree with the function.
- **Tables.** Listings and statistics work on a snapshot of the table, a
  `seq<CotacaoRow>`. Each query filter is a predicate and the listing is
  their conjunction.
- **Inputs.** The clock is a `nat` parameter. Request bodies are maps
  from keys to JSON scalars.

Quote creation is modelled once, for both blueprints.
`src/routes/cotacao_v133.py:118-370` repeats the legacy checks of
`src/routes/cotacao.py:169-426` step for step.

## Model

| member | source | states |
|---|---|---|
| QuoteModel.StatusFromValue | src/models/cotacao.py:8-14 | `StatusCotacao(text)` succeeds exactly on the six enum values and returns the status with that value |
| QuoteModel.TodosStatusCompleto | src/models/cotacao.py:8-14 | the iteration order lists every status |
| QuoteModel.EmpresaFromValue | src/models/cotacao.py:16-19 | `EmpresaCotacao(text)` succeeds exactly on the three mode values |
| QuoteModel.StatusDisplay | src/models/cotacao.py:252-262 | `get_status_display` gives a non-empty label for every status |
| QuoteModel.StatusDisplayInjetivo | src/models/cotacao.py:252-262 | distinct statuses get distinct labels |
| QuoteModel.GetStatusValue | src/models/cotacao.py:546-551 | None exactly for None; an enum gives the value that decodes back to it; any other stored text is returned unchanged |
| QuoteModel.NovaLinha | src/models/cotacao.py:34-37 | a new row is SOLICITADA, has no operator and satisfies the lifecycle invariant |
| QuoteModel.Historico.constructor | src/models/cotacao.py:478-490 | the ledger starts empty |
| QuoteModel.Historico.RegistrarMudanca | src/models/cotacao.py:492-505 | appends exactly one entry with the given fields and returns it |
| QuoteModel.EntradasDaCotacao | src/models/cotacao.py:510 | `filter_by(cotacao_id=...)` keeps exactly the ledger entries with that quote's id, each as often as the ledger holds it |
| QuoteModel.InserirPorTimestamp | src/models/cotacao.py:511 | inserting an entry into a timestamp-ordered history keeps it ordered and adds exactly that entry |
| QuoteModel.OrdenarPorTimestamp | src/models/cotacao.py:511 | `order_by(timestamp.asc())` returns a permutation of its input in ascending timestamp order |
| QuoteModel.OrdenadoFica | src/models/cotacao.py:511 | a sequence already in timestamp order is returned unchanged |
| QuoteModel.HistoricoDaCotacao | src/models/cotacao.py:507-512 | the history of a quote is in ascending timestamp order and holds exactly that quote's ledger entries, each as often as the ledger holds it |
| QuoteModel.HistoricoAposRegistro | src/models/cotacao.py:492-505 | appending an entry adds it to its own quote's entries only, after the others |
| QuoteModel.RegistroRecenteNoFim | src/models/cotacao.py:492-512 | an entry no earlier than any stored one ends its quote's history, whatever the ledger held before |
| QuoteModel.HistoricoOrdenado | src/models/cotacao.py:510-511 | with a ledger written in clock order, the timestamp-ordered history is exactly the quote's entries in ledger order |
| QuoteModel.PodeSerAceitaPor | src/models/cotacao.py:132-136 | a quote can be accepted exactly while SOLICITADA and by anyone but a consultant |
| QuoteModel.PodeSerRespondidaPor | src/models/cotacao.py:138-143 | only an ACEITA_OPERADOR quote can be answered; for a consultant or operator, exactly by its assigned operator |
| QuoteModel.PodeSerFinalizadaPor | src/models/cotacao.py:145-150 | never from SOLICITADA, ACEITA_OPERADOR or FINALIZADA; for a consultant or operator, exactly by the assigned operator once the quote has been sent |
| QuoteModel.PodeSerReatribuidaPor | src/models/cotacao.py:152-155 | exactly administrators and managers may reassign |
| QuoteModel.Transicao | src/models/cotacao.py:157-445 | every successful transition keeps the lifecycle invariant and the quote's identity, never moves the status backwards, and logs one entry whose previous and new statuses are the status before and after the call |
| QuoteModel.NovosMetodosUmEstadoDeOrigem | src/models/cotacao.py:342-445 | each newer method succeeds exactly from its single "from" status (SOLICITADA, ACEITA_OPERADOR, COTACAO_ENVIADA, COTACAO_ENVIADA) and lands in its single "to" status; `aceitar_por_operador` stores the given operator |
| QuoteModel.AceitarExigeEquipe | src/models/cotacao.py:132-136 | legacy `aceitar` succeeds exactly from SOLICITADA for an operational role; it then agrees with `aceitar_por_operador` |
| QuoteModel.MarcarFinalizadaGuarda | src/models/cotacao.py:145-150 | `marcar_finalizada` succeeds exactly from the three post-quote statuses, for the assigned operator or a manager, and yields FINALIZADA |
| QuoteModel.FinalizadaTerminal | src/models/cotacao.py:217-233 | on a FINALIZADA quote only `reatribuir` succeeds, and it keeps the status |
| QuoteModel.ReatribuirQualquerStatus | src/models/cotacao.py:235-250 | `reatribuir` succeeds exactly for ADMINISTRADOR/GERENTE whatever the status; only the operator changes; the entry's previous and new statuses coincide |
| QuoteModel.FinalizarRegistraDecisao | src/models/cotacao.py:195-215 | legacy `finalizar` succeeds exactly under `pode_ser_finalizada_por`, sets ACEITA_CONSULTOR or NEGADA_CONSULTOR by `aprovada` and stamps the response time |
| QuoteModel.FinalizarInverteDecisao | src/models/cotacao.py:145-150 | the assigned operator can turn an accepted quote into a refused one |
| QuoteModel.Cotacao.constructor | src/models/cotacao.py:108-111 | the new entity's row is the new SOLICITADA row |
| QuoteModel.Cotacao.Aceitar | src/models/cotacao.py:157-173 | does what `Transicao` specifies for `aceitar`, in place; nothing changes on error |
| QuoteModel.Cotacao.Responder | src/models/cotacao.py:175-193 | the same for `responder` |
| QuoteModel.Cotacao.Finalizar | src/models/cotacao.py:195-215 | the same for `finalizar` |
| QuoteModel.Cotacao.MarcarFinalizada | src/models/cotacao.py:217-233 | the same for `marcar_finalizada` |
| QuoteModel.Cotacao.Reatribuir | src/models/cotacao.py:235-250 | the same for `reatribuir` |
| QuoteModel.Cotacao.AceitarPorOperador | src/models/cotacao.py:342-366 | the same for `aceitar_por_operador` |
| QuoteModel.Cotacao.EnviarCotacao | src/models/cotacao.py:368-395 | the same for `enviar_cotacao`; the entry is logged under the assigned operator |
| QuoteModel.Cotacao.AceitarPorConsultor | src/models/cotacao.py:397-420 | the same for `aceitar_por_consultor`; the entry is logged under the quote's consultant |
| QuoteModel.Cotacao.NegarPorConsultor | src/models/cotacao.py:422-445 | the same for `negar_por_consultor` |
| QuoteModel.CriarCotacao | src/models/cotacao.py:447-473 | a fresh SOLICITADA entity plus one creation entry with no previous status |
| QuoteNumbering.LexNumerico | src/models/cotacao.py:119-121 | between digit strings of one length, text order is numeric order |
| QuoteNumbering.DoDia | src/models/cotacao.py:119-120 | the LIKE filter keeps exactly the numbers with the day's prefix |
| QuoteNumbering.MaiorLex | src/models/cotacao.py:121-122 | `order_by(desc).first()` is a stored number that no other number exceeds in text order; None exactly when there is none |
| QuoteNumbering.UltimoSegmento | src/models/cotacao.py:126 | `split('-')[-1]` is the suffix after the last '-' and contains no '-' |
| QuoteNumbering.ValorSequencial | src/models/cotacao.py:126-127 | `int(...)` of the last segment succeeds exactly when that segment is non-empty and all digits |
| QuoteNumbering.ValorPad4 | src/models/cotacao.py:130 | `{seq:04d}` changes the text and not the value |
| QuoteNumbering.SucessorBemFormado | src/models/cotacao.py:124-130 | from a well-formed four-digit number below 9999, the next number is well formed and its sequence is one more |
| QuoteNumbering.Pad4QuatroDigitos | src/models/cotacao.py:130 | below 10000 the padded number has exactly four digits |
| QuoteNumbering.GerarNumeroCotacao | src/models/cotacao.py:114-130 | the result carries the day's prefix; with no number yet that day it is `COT-<day>-0001` |
| QuoteNumbering.NumeroInedito | src/models/cotacao.py:114-130 | while every number of the day is four digits below 9999, the result is new and is exactly `COT-<day>-` followed by the numerically greatest sequence of the day plus one, zero-padded to four digits (`0001` on a day without numbers) |
| QuoteNumbering.NumeroRepetidoApos9999 | src/models/cotacao.py:121-127 | once the day holds 9999 and 10000, the rule as written returns 10000 again |
| QuoteNumbering.MaiorValor | src/models/cotacao.py:121-127 | the corrected rule's maximum bounds every readable sequence of the day |
| QuoteNumbering.GerarNumeroCorrigido | src/models/cotacao.py:114-130 | the corrected rule keeps the day's prefix |
| QuoteNumbering.NumeroCorrigidoInedito | src/models/cotacao.py:114-130 | the corrected rule never returns a stored number |
| QuoteNumbering.MaiorLexEhMaiorValor | src/models/cotacao.py:121-127 | over well-formed numbers, the text-greatest has the greatest sequence value |
| QuoteNumbering.NaoPosteriorNaoMaior | src/models/cotacao.py:121-127 | among well-formed numbers, one not earlier in text order has a sequence value at least as great |
| QuoteNumbering.CorrigidoConcordaAbaixoDe9999 | src/models/cotacao.py:114-130 | where the rule as written is right, the corrected one gives the same number |
| Common.DigitsOnly | src/routes/cotacao.py:18 | `re.sub(r'[^0-9]', '', s)` yields digits only and is no longer than `s` |
| Common.DigitsOnlyIdempotent | src/routes/cotacao.py:18 | cleaning twice equals cleaning once |
| Common.DecimalOfNatToDecimal | src/routes/cotacao.py:53 | `int(str(n)) == n` |
| Common.Lower | src/routes/cotacao.py:184 | `.lower()` keeps the length and lower-cases each ASCII letter |
| Common.LowerOfLower | src/routes/cotacao.py:184 | text without capitals is unchanged by lower-casing |
| Validators.DigitoVerificador | src/routes/cotacao.py:37-38 | the check digit is 0 exactly when the remainder mod 11 is below 2; otherwise it completes the sum to a multiple of 11 |
| Validators.PesosPrimeiroSeguemRegra | src/routes/cotacao.py:30-35 | the first weight list is what the decrement-and-wrap loop produces |
| Validators.PesosSegundoSeguemRegra | src/routes/cotacao.py:42-47 | the same for the second weight list |
| Validators.SomarComPesos | src/routes/cotacao.py:29-35 | the loop computes the weighted sum of the digits |
| Validators.ValidarCnpj | src/routes/cotacao.py:15-53 | true exactly when the cleaned CNPJ has 14 digits, not all equal, and both check digits match |
| Validators.ValidarCep | src/routes/cotacao.py:55-58 | true exactly when the cleaned CEP has 8 digits |
| Validators.ValidadoresIgnoramNaoDigitos | src/routes/cotacao.py:18 | both validators ignore every non-digit character |
| Query.Filtrar | src/routes/cotacao.py:89-137 | a filter keeps exactly the rows satisfying it, without adding any |
| Query.FiltrarTudo | src/routes/cotacao.py:89-137 | a filter every row passes changes nothing |
| Query.FiltrarDuasVezes | src/routes/cotacao.py:89-137 | successive filters are the filter on their conjunction |
| Query.FiltrarEquivalentes | src/routes/cotacao.py:89-137 | filters that agree on every row select the same rows |
| Query.OrdenarPorDataDesc | src/routes/cotacao.py:140 | `order_by(desc(data_solicitacao))` is a permutation ordered most recent first |
| Query.Inserir | src/routes/cotacao.py:140 | inserting into an ordered list keeps it ordered and adds exactly the new row |
| Query.Contar | src/routes/cotacao.py:691 | a `count()` never exceeds the rows counted |
| Query.Listar | src/routes/cotacao.py:139-155 | a listing holds exactly the selected rows, ordered most recent first, with their count as the total |
| RoutesLegacy.ListarLegado | src/routes/cotacao.py:82-137 | a row is listed exactly when it passes every conjunct; a consultant sees only own quotes; most recent first |
| RoutesLegacy.Normalizar | src/routes/cotacao.py:89-137 | as the handler applies the filters: status and mode name a real value, dates parse, and no id filter for a consultant |
| RoutesLegacy.FiltrosIgnorados | src/routes/cotacao.py:90-137 | unparseable status, mode or dates, empty parameters and a consultant's id filters change nothing |
| RoutesLegacy.FiltroCnpjSoDigitos | src/routes/cotacao.py:100-102 | the CNPJ filter matches on the parameter's digits only |
| RoutesLegacy.FiltroCnpjSemDigitos | src/routes/cotacao.py:100-102 | a CNPJ parameter without digits filters nothing |
| RoutesLegacy.SemFiltrosTudo | src/routes/cotacao.py:85-87 | without filters a non-consultant lists the whole table |
| RoutesLegacy.VisivelLegado | src/routes/cotacao.py:82-83 | administrators, managers and operators see every quote; a consultant sees exactly own quotes |
| RoutesLegacy.FinalizarRota | src/routes/cotacao.py:566-624 | the missing-quote answer (500 as written, 404 in the corrected reading) for a missing quote; 403 unless `pode_ser_finalizada_por`; a consultant succeeds only with `aprovar`/`recusar` on a sent quote, others only with `marcar_finalizada`; any other action is a 400 with no change |
| RoutesLegacy.DonoNaoBastaParaFinalizar | src/routes/cotacao.py:573 | the owning consultant who is not the assigned operator is refused with 403 |
| RoutesLegacy.Finalizar | src/routes/cotacao.py:566-624 | the handler over the entity answers and changes exactly as `FinalizarRota` says |
| RoutesLegacy.BuscarUsuario | src/routes/cotacao.py:648 | `Usuario.query.get` finds a user exactly when the id parses and exists |
| RoutesLegacy.ReatribuirRota | src/routes/cotacao.py:628-677 | the missing-quote answer (500 as written, 404 in the corrected reading), then 403 for a non-manager, then 400 for a missing or non-team target; success only replaces the operator |
| RoutesLegacy.ReatribuicaoValidaSempreAplica | src/routes/cotacao.py:641-655 | a manager naming an existing team member always reassigns, in any status |
| RoutesLegacy.Reatribuir | src/routes/cotacao.py:628-677 | the handler over the entity agrees with `ReatribuirRota` |
| RoutesLegacy.ContarStatus | src/routes/cotacao.py:696 | a status count is at most the number of rows |
| RoutesLegacy.ContarEmpresa | src/routes/cotacao.py:702 | a mode count is at most the number of rows |
| RoutesLegacy.ContarOperador | src/routes/cotacao.py:714 | an operator count is at most the number of rows |
| RoutesLegacy.StatusSomamTotal | src/routes/cotacao.py:694-697 | the six status counts sum to the number of rows |
| RoutesLegacy.EmpresasSomamTotal | src/routes/cotacao.py:700-703 | the three mode counts sum to the number of rows |
| RoutesLegacy.ContarOperadorPositivo | src/routes/cotacao.py:714-716 | an operator's count is positive exactly when some quote is assigned to the operator |
| RoutesLegacy.PorOperador | src/routes/cotacao.py:706-716 | `por_operador` holds only positive counts |
| RoutesLegacy.PorOperadorConteudo | src/routes/cotacao.py:709-716 | every entry is the count of a team member with that name, and every team member with quotes has an entry |
| RoutesLegacy.EscopoLegado | src/routes/cotacao.py:685-688 | the statistics scope is the rows the caller may see |
| RoutesLegacy.ContagemPorStatus | src/routes/cotacao.py:694-697 | the loop gives exactly one key per status, each mapped to its count |
| RoutesLegacy.ContagemPorEmpresa | src/routes/cotacao.py:700-703 | the loop gives exactly one key per mode, each mapped to its count |
| RoutesLegacy.ContagemPorOperador | src/routes/cotacao.py:709-716 | the loop over the team builds `PorOperador` |
| RoutesLegacy.ObterEstatisticas | src/routes/cotacao.py:681-726 | total, zero-filled per-status and per-mode maps that each sum to the total, and `por_operador` empty for a consultant |
| QuoteCreation.CamposObrigatorios | src/routes/cotacao.py:186-222 | every list starts with the three basic fields; non-maritime lists require the weight; the maritime list contains every field of the second maritime check |
| QuoteCreation.PrimeiroAusente | src/routes/cotacao.py:224-229 | the first falsy required field, or None when all are truthy |
| QuoteCreation.PrimeiroAusenteUnico | src/routes/cotacao.py:224-229 | the reported field is the first falsy one |
| QuoteCreation.PrimeiroCampoAusente | src/routes/cotacao.py:224-229 | the loop finds the first falsy required field |
| QuoteCreation.ParseDecimal | src/routes/cotacao.py:259 | `float` of text: the empty text and a bare sign or point raise; digit text reads as its value; a leading '-' negates |
| QuoteCreation.PyFloat | src/routes/cotacao.py:259 | `float` of a JSON value: None raises; an integer is itself; True and False are 1.0 and 0.0; text goes through `ParseDecimal` |
| QuoteCreation.ModoMinusculo | src/routes/cotacao.py:184 | an absent mode is ''; a non-text mode makes `.lower()` raise; text is lower-cased, keeping its length |
| QuoteCreation.TipoOrigem | src/routes/cotacao.py:326 | the request's `tipo_origem`, 'endereco' when absent |
| QuoteCreation.OrigemPorto | src/routes/cotacao.py:327-333 | a port origin has a CEP that passes `validar_cep`, state SP, the port as city and 'Porto: ' before it as address |
| QuoteCreation.ColetaPreferencial | src/routes/cotacao.py:378 | a falsy `data_coleta_preferencial` is no date; a truthy one must be text `strptime` parses, else the request fails with 500 |
| QuoteCreation.ColetaInvalidaNadaCria | src/routes/cotacao.py:378 | a truthy collection date that does not parse refuses the whole creation with 500, so no quote and no ledger entry exist |
| QuoteCreation.ErroMaritimoSoDaVerificacaoMaritima | src/routes/cotacao.py:289-301 | a missing-maritime-field refusal can only come from the maritime check of a maritime request |
| QuoteCreation.ParseDecimalDeNatural | src/routes/cotacao.py:259 | `float` of a rendered natural reads back that natural |
| QuoteCreation.ErroDeCep | src/routes/cotacao.py:238-254 | CEPs are checked only for road mode: the destination always, the origin when the origin type is 'endereco' |
| QuoteCreation.PesoDaCarga | src/routes/cotacao.py:256-277 | an accepted weight is positive; for maritime it is the gross weight |
| QuoteCreation.EmpresaDaRequisicao | src/routes/cotacao.py:279-287 | the stored mode is the exact value sent, or road when the key is absent |
| QuoteCreation.ErroMaritimo | src/routes/cotacao.py:289-322 | maritime passes only with positive net weight, gross weight and cubage and net not above gross |
| QuoteCreation.Origem | src/routes/cotacao.py:324-350 | a port origin is CEP 00000000, state SP; an address origin keeps the cleaned CEP |
| QuoteCreation.MontarEnvio | src/routes/cotacao.py:352-369 | the stored CNPJ and CEPs are the digits of the request's; the weight, origin and preferred collection date are the validated ones |
| QuoteCreation.ValidarCarga | src/routes/cotacao.py:231-301 | success implies the CNPJ is valid, the CEPs of a road request pass, the weight is the parsed one, the mode is a real value and a maritime request's values are valid |
| QuoteCreation.ValidarAposCampos | src/routes/cotacao.py:231-350 | success implies every later check passed, in source order, and that the collection date parsed into the stored one |
| QuoteCreation.ValidarCriacao | src/routes/cotacao.py:171-350 | 403 for a role that may not create; success implies a text mode and every check passed |
| QuoteCreation.ModoExatoMinusculo | src/routes/cotacao.py:184 | a mode sent exactly as an enum value is its own lower-casing |
| QuoteCreation.CriacaoCnpjValido | src/routes/cotacao.py:231-236 | a created quote stores 14 digits that pass the CNPJ check |
| QuoteCreation.CriacaoPesoPositivo | src/routes/cotacao.py:256-277 | the stored weight is positive; for maritime it is the gross weight, net does not exceed it, and the origin is the port placeholder |
| QuoteCreation.CriacaoModoExato | src/routes/cotacao.py:279-287 | a created quote's mode is exactly the value sent, or road when absent |
| QuoteCreation.CriacaoCepsRodoviarios | src/routes/cotacao.py:238-254 | road quotes store an 8-digit destination CEP, and an 8-digit origin CEP for an address origin |
| QuoteCreation.SegundaVerificacaoMaritimaRedundante | src/routes/cotacao.py:289-301 | the second maritime required-field check never fires |
| QuoteCreation.CriacaoSemModoNaoValidaCep | src/routes/cotacao.py:184-254 | with no mode sent, the road list is required but no CEP is validated, and the quote is stored as road |
| QuoteCreation.PodeCriar | src/routes/cotacao.py:175 | every role but operator may create a quote |
| QuoteCreation.NumeroDaNovaCotacao | src/models/cotacao.py:108-130 | the number `__init__` gives the new row is never one already stored; as written it is `gerar_numero_cotacao`'s result, and it fails when that raises or repeats a stored number; corrected, it is the numeric-maximum rule and never fails |
| QuoteCreation.NumeracaoFalhaApos9999 | src/models/cotacao.py:119-127 | on the day holding 9999 and 10000 the as-written numbering fails and the corrected one succeeds |
| QuoteCreation.NumeracoesConcordam | src/models/cotacao.py:114-130 | while the day's numbers are four digits below 9999, both readings give the same number and neither fails |
| QuoteCreation.CriarCotacaoRota | src/routes/cotacao.py:171-426 | a refused request creates nothing and logs nothing; an accepted one whose numbering fails (as written: `int()` raises or the unique column refuses a repeated number) is a 500 with nothing created or logged; otherwise it creates a SOLICITADA quote under a number not yet stored and logs its creation; an unparseable collection date is a 500 with nothing created |
| Http.IdDe | src/routes/cotacao.py:648 | a non-negative integer id is itself; only integers and digit text resolve to an id |
| Http.CotacaoAusente | src/routes/cotacao.py:569-624 | a missing quote changes nothing; as written (`get_or_404` inside `try ... except Exception`) it answers 500, in the corrected reading 404 |
| RoutesV133.ListarV133 | src/routes/cotacao_v133.py:41-89 | a row is listed exactly when visible and passing every filter; a consultant sees own quotes; an operator sees SOLICITADA or own; most recent first |
| RoutesV133.NormalizarV133 | src/routes/cotacao_v133.py:57-86 | as the handler applies the filters: status and mode name a real value and dates parse |
| RoutesV133.FiltrosIgnoradosV133 | src/routes/cotacao_v133.py:57-86 | invalid and empty filters are skipped silently |
| RoutesV133.GestorSemFiltrosVeTudo | src/routes/cotacao_v133.py:52-54 | administrators and managers list the whole table without filters |
| RoutesV133.OperadorNaoVeCotacaoDeOutro | src/routes/cotacao_v133.py:44-51 | an operator lists a quote exactly when it is SOLICITADA or assigned to the operator |
| RoutesV133.AceitarOperadorRota | src/routes/cotacao_v133.py:436-470 | 403 for a role outside the team, before the lookup; the missing-quote answer (500 as written, 404 in the corrected reading); a wrong status is the model's 400; success assigns the caller |
| RoutesV133.AceitarOperador | src/routes/cotacao_v133.py:436-470 | the handler over the entity agrees with `AceitarOperadorRota` |
| RoutesV133.NotaDeNegacao | src/routes/cotacao_v133.py:494-499 | the refusal note always starts with the fixed text |
| RoutesV133.NegarOperadorRota | src/routes/cotacao_v133.py:474-513 | 403, the missing-quote answer (500 as written, 404 in the corrected reading), then 400 for any status other than SOLICITADA |
| RoutesV133.NegarOperadorNuncaAplica | src/routes/cotacao_v133.py:487-500 | the path never changes a quote; from SOLICITADA it always ends in a 500 |
| RoutesV133.NegarOperador | src/routes/cotacao_v133.py:474-513 | the handler over the entity agrees with `NegarOperadorRota` |
| RoutesV133.EnviarRespostaRota | src/routes/cotacao_v133.py:517-577 | 403 outside the team; the missing-quote answer (500 as written, 404 in the corrected reading); a plain operator must be the assigned one; success needs an existing provider company and ACEITA_OPERADOR, and stores the answer |
| RoutesV133.EnvioRegistradoEmNomeDoOperador | src/routes/cotacao_v133.py:530-559 | a manager's answer is logged under the assigned operator's id |
| RoutesV133.EnviarResposta | src/routes/cotacao_v133.py:517-577 | the handler over the entity agrees with `EnviarRespostaRota` |
| RoutesV133.PodeDecidir | src/routes/cotacao_v133.py:621 | the decision routes admit every role but operator |
| RoutesV133.DecisaoConsultorRota | src/routes/cotacao_v133.py:617-703 | 403 for other roles; the missing-quote answer (500 as written, 404 in the corrected reading); a consultant must own the quote; success needs COTACAO_ENVIADA and records the decision under the consultant |
| RoutesV133.OperadorNaoDecide | src/routes/cotacao_v133.py:620-625 | an operator is always refused with 403 |
| RoutesV133.AceitarConsultor | src/routes/cotacao_v133.py:617-658 | the accept handler agrees with `DecisaoConsultorRota` |
| RoutesV133.NegarConsultor | src/routes/cotacao_v133.py:662-703 | the decline handler agrees with `DecisaoConsultorRota` |
| RoutesV133.PodeVisualizar | src/routes/cotacao_v133.py:889-893 | administrators and managers may read any history; a consultant or operator exactly when they are the quote's consultant or its assigned operator |
| RoutesV133.HistoricoRota | src/routes/cotacao_v133.py:883-913 | the missing-quote answer (500 as written, 404 in the corrected reading); 403 unless manager, owning consultant or assigned operator; otherwise exactly that quote's entries, in ascending timestamp order |
| RoutesV133.HistoricoLidoOrdenado | src/routes/cotacao_v133.py:901 | the history a permitted caller reads is in ascending timestamp order and holds each of the quote's ledger entries exactly as often as the ledger does; with a ledger written in clock order it is the ledger's own order |
| RoutesV133.AusenteViraErroInterno | src/routes/cotacao_v133.py:446-470 | as written, every handler that looks a quote up (legacy finalizar and reatribuir; aceitar-operador, negar-operador, enviar-resposta, aceitar/negar-consultor and historico) answers an unknown id with 500 and changes nothing, for every caller the role check lets through |
| RoutesV133.AusenteNaoEncontrada | src/routes/cotacao_v133.py:446-470 | in the corrected reading the same handlers answer 404 and change nothing |
| RoutesV133.VisivelV133 | src/routes/cotacao_v133.py:41-54 | outside the operator role the base query is the legacy one; an operator never sees a quote that is neither SOLICITADA nor assigned to the operator; an assigned non-consultant always sees it |
| Dashboard.FiltrosValidos | src/static/js/api.js:301-309 | keeps exactly the entries whose value is not null, undefined or '' |
| Dashboard.FiltrosValidosPreservaChaves | src/static/js/api.js:303-307 | keys stay distinct and each kept key carries its original value |
| Dashboard.FiltrosValidosConcatena | src/static/js/api.js:303-307 | the entries are examined one by one in the order of `filters`: cleaning a concatenation concatenates the cleaned parts |
| Dashboard.LimparFiltros | src/static/js/api.js:301-309 | the `forEach` loop computes `FiltrosValidos` |
| Dashboard.Incrementar | src/static/js/api.js:594 | a counter keeps its length or gains one new key with count 1 |
| Dashboard.TabularSoma | src/static/js/api.js:591-603 | a counter's counts sum to the number of counted quotes |
| Dashboard.TabularConteudo | src/static/js/api.js:591-603 | a counter has one entry per distinct key, holding its number of occurrences |
| Dashboard.TabularUltimo | src/static/js/api.js:594 | counting one more key is one increment of the counter |
| Dashboard.JsToString | src/static/js/api.js:594 | a truthy value used as an object key gives a non-empty key; a negative number's key starts with '-'; a non-negative integer's key is its decimal digits, reading back as that integer |
| Dashboard.ChaveDe | src/static/js/api.js:593-601 | a falsy value falls back to the default key, and the key is never empty |
| Dashboard.ChavesStatus | src/static/js/api.js:593 | the status key, defaulting to 'solicitada' |
| Dashboard.ChavesModalidade | src/static/js/api.js:597 | the mode key, defaulting to 'brcargo_rodoviario' |
| Dashboard.ChavesOperador | src/static/js/api.js:601 | the operator key, defaulting to 'Não atribuído' |
| Dashboard.Finalizadas | src/static/js/api.js:605-608 | `finalizadas` never exceeds the number of quotes |
| Dashboard.FinalizadasDoOperador | src/static/js/api.js:635 | an operator's finalized count never exceeds the number of quotes |
| Dashboard.FinalizadasDoOperadorLimitadas | src/static/js/api.js:632-636 | an operator bucket's finalized count is at most its count |
| Dashboard.NaoAtribuidoSemFinalizadas | src/static/js/api.js:601-635 | quotes without an operator never count as finalized in the 'Não atribuído' bucket |
| Dashboard.TaxaConversao | src/static/js/api.js:619 | 0 for an empty list; otherwise 100·f/n rounded to the nearest integer, halves up, in 0..100 |
| Dashboard.PorOperadorLimitado | src/static/js/api.js:632-636 | every operator bucket has at most as many finalized quotes as quotes |
| Dashboard.UmaCotacaoAMais | src/static/js/api.js:591-609 | one more quote is one increment of each counter |
| Dashboard.ContarCotacoes | src/static/js/api.js:585-609 | the `forEach` loop fills the three counters and `finalizadas` |
| Dashboard.ProcessarDadosDashboard | src/static/js/api.js:581-643 | `total`, `finalizadas`, `pendentes = total - finalizadas >= 0` and `taxaConversao` in 0..100; each counter lists its keys in insertion order and sums to the total, the status and mode counters carry their labels; per operator, `finalizadas <= count` |
| Dashboard.LabelStatus | src/static/js/api.js:690-700 | a labelled status key gets its label, any other key comes back unchanged, and a non-empty key never gets an empty label |
| Dashboard.LabelModalidade | src/static/js/api.js:702-709 | a labelled mode key gets its label, any other key comes back unchanged, and a non-empty key never gets an empty label |
| Dashboard.Rotulo | src/static/js/api.js:699 | a known key gets its label; an unknown key comes back unchanged |
| Dashboard.LabelStatusFallback | src/static/js/api.js:690-700 | five statuses get their label; 'negada_consultor' comes back unchanged |
| Dashboard.LabelModalidadeFallback | src/static/js/api.js:702-709 | 'frete_aereo' comes back unchanged; road and maritime get their labels |
| Dashboard.ComoEscrito | src/static/js/api.js:597-605 | the quotes as the dashboard reads the server's dictionaries |
| Dashboard.Corrigido | src/static/js/api.js:597-605 | the quotes read under the server's key names |
| Dashboard.FinalizadasComFrete | src/models/cotacao.py:286-320 | the finalized rows with a freight value never exceed the rows |
| Dashboard.ServidorComoEscrito | src/static/js/api.js:597-605 | as written, server data gives no finalized quote, a single road bucket and a single 'Não atribuído' bucket |
| Dashboard.FinalizadaInvisivelComoEscrito | src/static/js/api.js:597-605 | one finalized quote with freight 100 and an operator shows 0 finalized and no operator as written, and 1 and the operator once corrected |
| Dashboard.FinalizadaLida | src/static/js/api.js:605 | under the server's names, a quote counts as finalized exactly when its row is FINALIZADA with a non-zero freight |
| Dashboard.ServidorCorrigido | src/static/js/api.js:605-608 | under the server's names, `finalizadas` counts exactly the finalized rows with a freight value |
| Dashboard.ServidorCorrigidoPorModalidade | src/static/js/api.js:597-598 | under the server's names, each quote is bucketed under its own transport mode |

## Findings

| source | as written | input that shows it | evidently intended | confidence | as-written member | corrected member |
|---|---|---|---|---|---|---|
| src/models/cotacao.py:119-127 | the next daily number is one more than the text-greatest stored number of the day | a day holding `COT-d-9999` and `COT-d-10000`: the text-greatest is `...-9999`, so `...-10000` is generated again and breaks the unique column | one more than the numerically greatest sequence | medium, not executed | QuoteNumbering.NumeroRepetidoApos9999 | QuoteNumbering.NumeroCorrigidoInedito |
| src/routes/cotacao.py:569-624 | `get_or_404` runs inside `try ... except Exception`; werkzeug's `NotFound` is an `Exception`, so it is answered with that clause's `500` | `POST /cotacoes/<id>/finalizar` with an id that has no row; the same holds for reatribuir (631, 672) and, in the v1.3.3 blueprint, aceitar-operador, negar-operador, enviar-resposta, aceitar-consultor, negar-consultor and historico | a `404` for a missing quote | high, not executed | RoutesV133.AusenteViraErroInterno | RoutesV133.AusenteNaoEncontrada |
| src/static/js/api.js:597-605 | the dashboard reads `modalidade`, `operador_responsavel` and `valor_frete`, keys that `Cotacao.to_dict` (src/models/cotacao.py:276-340) does not emit | the server's list with one FINALIZADA quote, freight 100, assigned to 'Maria': `finalizadas` is 0 and the operator bucket is 'Não atribuído' | read `empresa_transporte`, `operador_nome` and `cotacao_valor_frete` | medium, not executed | Dashboard.ServidorComoEscrito | Dashboard.ServidorCorrigido |

Every handler that looks a quote up takes a `Leitura`: `ComoEscrito` gives
the 500 the code answers, `Corrigido` the intended 404 (`Http.CotacaoAusente`).
Creation takes a `Leitura` too: `ComoEscrito` numbers the row with
`QuoteNumbering.GerarNumeroCotacao` and answers 500 where that fails,
`Corrigido` with `QuoteNumbering.GerarNumeroCorrigido` (`QuoteCreation.NumeroDaNovaCotacao`). The dashboard's counting
(`Dashboard.ProcessarDadosDashboard`) is stated over whatever quote objects
it is given. `Dashboard.Corrigido` is the corrected reading of the server's
list that feeds it.

Behaviours of the source that are modelled as written and are not flagged
as findings:

- Refusal through `negar-operador` never succeeds. The route lets only
  SOLICITADA through, and `marcar_finalizada` refuses SOLICITADA, so the call
  always ends in a 500 (`RoutesV133.NegarOperadorNuncaAplica`).
- Legacy `finalizar` can flip an existing decision
  (`QuoteModel.FinalizarInverteDecisao`).
- Legacy finalize checks the assigned operator, not the owner, so the owning
  consultant is refused (`RoutesLegacy.DonoNaoBastaParaFinalizar`).
- The second maritime required-field list at creation can never fire.
- A creation request without a transport mode is checked against the road
  field list, but none of its CEPs is validated.
- The date-end filter compares with midnight of that day. A quote requested
  later on that day is therefore excluded.

## Left out

- HTTP plumbing (Flask routing, CORS, `login_required`): the caller is a `User` parameter. Responses are a code plus a reason; the JSON bodies and `to_dict` serialisation are not modelled.
- `request.get_json()` returning None: the body is always a key-to-scalar map. Nested JSON values, floats in JSON and lists are not modelled; `Json` holds null, booleans, integers and text.
- Pagination (`paginate`, page and per-page): listings return the whole selected, ordered list and its total.
- Persistence: `commit`/`rollback`, database-assigned ids (the id is a parameter) and the raw-SQL fallback of `obter_historico_cotacao` (src/models/cotacao.py:514-541).
- Notifications (`Notificacao.*`) and `LogAuditoria`: no effect on the modelled state.
- The race between concurrent creations in the daily numbering: the model is sequential.
- Floating point: weights, freight values and the parsing of `float` are exact reals over a decimal subset. `valorTotal`, `calcularValoresPorModalidade`, `calcularEvolucaoTemporal` and the cubage fallback of `to_dict` are not modelled. The NaN and infinity consequences are on the `QuoteCreation.ParseDecimal` line below.
- QuoteCreation.ParseDecimal: gives None on text outside the decimal subset, although Python's `float` also accepts surrounding blanks, exponents ('1e3'), underscores ('1_0'), 'inf' and 'nan'. Since `float('nan') <= 0` is False, the source accepts and stores a NaN weight, and an infinite one; `QuoteCreation.PesoDaCarga` and `QuoteCreation.CriacaoPesoPositivo` state positivity over the decimal subset only.
- Dashboard.TaxaConversao: computed on exact rationals; the float rounding of `finalizadas / total * 100` at exact halves is not modelled.
- QuoteModel.HistoricoDaCotacao / RoutesV133.HistoricoRota: entries with equal timestamps keep their ledger order; the database's order among them is unspecified.
- Dashboard.JsToString: the digits of a fractional number used as a counter key are not modelled, and an integer of 1e21 or more is written as plain digits where JavaScript writes exponent form ('1e+21'). JavaScript's ordering of integer-like keys ahead of the others in `Object.entries` is not modelled either: counters keep plain insertion order.
- Dashboard.Rotulo: keys inherited from `Object.prototype` (such as `constructor`) that a plain `labels[k]` would find are not modelled.
- Dashboard.LimparFiltros: a `filters` argument that is not an object is not modelled; the URLSearchParams construction and the `fetch` are left out.
- The clock (`get_brasilia_time`), `strptime` (a date parameter is absent, invalid, or the instant of its midnight) and time zones. At creation `strptime` with '%Y-%m-%d' is a function parameter (text to an instant, or failure); the format itself is not modelled.
- ILIKE and LIKE: matching is ASCII case folding and plain substring search; `%` and `_` in a parameter are taken literally.
- NULL and '' in text columns are not distinguished.
- Text ids in `Usuario.query.get` and `Empresa.query.get` resolve when they are decimal digits; other database coercions are not modelled.
- The handlers outside the core: legacy `obter_cotacao`, `aceitar_cotacao` and `responder_cotacao`, `listar_operadores`, and the v1.3.3 per-mode, "disponíveis", "minhas", notification and test endpoints.
- `get_status_color` and `to_dict` beyond the keys the dashboard reads.
- src/static/js/ui.js is not part of this model (DOM work only).
- QuoteNumbering.ValorSequencial: Python `int()` also accepts surrounding whitespace, a leading sign and digit-separating underscores (`' 7'`, `'+7'`, `'1_0'`); the model reads such a segment as unparseable. Numbers the rule itself generates never contain them.
- Dashboard.ProcessarDadosDashboard: status, mode or operator values equal to a key of `Object.prototype` (`'constructor'`, `'__proto__'`) used as counter keys are counted like any other key; the prototype lookup JavaScript would do is not modelled.
- RoutesV133.EnviarRespostaRota: `valor_frete` and `prazo_entrega` are modelled as an optional number; any other JSON value `request.get_json()` might carry there (text, lists, objects) is not modelled.
