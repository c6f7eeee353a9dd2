/** The unified v1.3.3 blueprint (src/routes/cotacao_v133.py) apart from
    creation, which QuoteCreation models: the listing with its per-role
    scope, and the handlers that wrap the newer model methods with role and
    ownership checks of their own (the model methods check only the status). */
module RoutesV133 {
  import opened Common
  import opened QuoteModel
  import opened Query
  import opened Http
  import RoutesLegacy

  // ---------------------------------------------------------------- listing

  /** The query-string filters of the unified `GET /cotacoes`. */
  datatype FiltrosV133 = FiltrosV133(
    status: Option<string>,
    clienteNome: Option<string>,
    empresaTransporte: Option<string>,
    dataInicio: DataArg,
    dataFim: DataArg)

  const SemFiltros: FiltrosV133 := FiltrosV133(None, None, None, SemData, SemData)

  /** The base query: a consultant's own quotes; for an operator the open
      pool (SOLICITADA) plus the quotes assigned to the operator; everything
      for administrators and managers. */
  predicate VisivelV133(u: User, q: CotacaoRow)
    ensures u.role != Operador ==> (VisivelV133(u, q) <==> RoutesLegacy.VisivelLegado(u, q))
    ensures u.role == Operador && q.status != Solicitada && q.operadorId != Some(u.id) ==> !VisivelV133(u, q)
    ensures q.operadorId == Some(u.id) && u.role != Consultor ==> VisivelV133(u, q)
  {
    match u.role
    case Consultor => q.consultorId == u.id
    case Operador => q.status == Solicitada || q.operadorId == Some(u.id)
    case _ => true
  }

  predicate SelecionadaV133(u: User, f: FiltrosV133, q: CotacaoRow) {
    && VisivelV133(u, q)
    && PassaStatus(f.status, q)
    && PassaTexto(f.clienteNome, q.envio.clienteNome)
    && PassaEmpresa(f.empresaTransporte, q)
    && PassaDesde(f.dataInicio, q)
    && PassaAte(f.dataFim, q)
  }

  /** `listar_cotacoes` before pagination. */
  function ListarV133(u: User, f: FiltrosV133, tabela: seq<CotacaoRow>): (l: Listagem)
    ensures forall x :: x in l.itens <==> x in tabela && SelecionadaV133(u, f, x)
    ensures u.role == Consultor ==> forall x :: x in l.itens ==> x.consultorId == u.id
    ensures u.role == Operador ==> forall x :: x in l.itens ==> x.status == Solicitada || x.operadorId == Some(u.id)
    ensures Decrescente(l.itens) && l.total == |l.itens|
  {
    Listar(tabela, q => SelecionadaV133(u, f, q))
  }

  /** The filters as effectively applied: empty parameters and unparseable
      status, mode and dates dropped. */
  function NormalizarV133(f: FiltrosV133): (g: FiltrosV133)
    ensures g.status.Some? ==> StatusFromValue(g.status.value).Some?
    ensures g.empresaTransporte.Some? ==> EmpresaFromValue(g.empresaTransporte.value).Some?
    ensures !g.dataInicio.DataInvalida? && !g.dataFim.DataInvalida?
  {
    FiltrosV133(
      if Informado(f.status) && StatusFromValue(f.status.value).Some? then f.status else None,
      if Informado(f.clienteNome) then f.clienteNome else None,
      if Informado(f.empresaTransporte) && EmpresaFromValue(f.empresaTransporte.value).Some?
      then f.empresaTransporte else None,
      if f.dataInicio.Dia? then f.dataInicio else SemData,
      if f.dataFim.Dia? then f.dataFim else SemData)
  }

  /** Invalid or empty filters are skipped silently. */
  lemma FiltrosIgnoradosV133(u: User, f: FiltrosV133, tabela: seq<CotacaoRow>)
    ensures ListarV133(u, f, tabela) == ListarV133(u, NormalizarV133(f), tabela)
  {
    var g := NormalizarV133(f);
    FiltrarEquivalentes(tabela, q => SelecionadaV133(u, f, q), q => SelecionadaV133(u, g, q));
  }

  /** Administrators and managers see the whole table when no filter is given. */
  lemma GestorSemFiltrosVeTudo(u: User, tabela: seq<CotacaoRow>)
    requires Gestor(u.role)
    ensures multiset(ListarV133(u, SemFiltros, tabela).itens) == multiset(tabela)
  {
    FiltrarTudo(tabela, q => SelecionadaV133(u, SemFiltros, q));
  }

  /** An operator's unfiltered listing is exactly the open pool plus the
      operator's own quotes, so a quote another operator took is hidden. */
  lemma OperadorNaoVeCotacaoDeOutro(u: User, q: CotacaoRow, tabela: seq<CotacaoRow>)
    requires u.role == Operador && q in tabela
    ensures q in ListarV133(u, SemFiltros, tabela).itens <==> q.status == Solicitada || q.operadorId == Some(u.id)
  {
  }

  // ---------------------------------------------------------------- aceitar-operador

  /** `aceitar_cotacao_operador`: the role check comes first (403, even for a
      missing quote), then the lookup, then `aceitar_por_operador`, whose
      `ValueError` is a 400. */
  function AceitarOperadorRota(l: Leitura, u: User, linha: Option<CotacaoRow>, obs: Option<string>, agora: nat): (r: Efeito)
    requires LinhaValida(linha)
    ensures !EquipeOperacional(u.role) ==> r == Recusa(403, PerfilSemPermissao)
    ensures EquipeOperacional(u.role) && linha.None? ==> r == CotacaoAusente(l)
    ensures EquipeOperacional(u.role) && linha.Some? && linha.value.status != Solicitada ==>
      r == Recusa(400, ErroDoModelo(IndisponivelParaAceitacao))
    ensures r.passo.Some? ==>
      && EquipeOperacional(u.role) && linha.Some? && linha.value.status == Solicitada
      && r.passo.value.depois.status == AceitaOperador && r.passo.value.depois.operadorId == Some(u.id)
      && r.passo.value.registro.usuarioId == u.id
  {
    if !EquipeOperacional(u.role) then Recusa(403, PerfilSemPermissao)
    else if linha.None? then CotacaoAusente(l)
    else PeloModelo(Transicao(linha.value, Evento.AceitarPorOperador(u.id, obs), agora), 400)
  }

  method AceitarOperador(l: Leitura, u: User, q: Cotacao?, obs: Option<string>, historico: Historico, agora: nat)
    returns (resp: Resposta)
    requires q != null ==> q.Valid()
    modifies q, historico
    ensures q != null ==> q.Valid()
    ensures var ef := AceitarOperadorRota(l, u, old(LinhaDe(q)), obs, agora);
            resp == ef.resposta && Efetivou(ef.passo, q, historico)
  {
    if !EquipeOperacional(u.role) {
      return Resposta(403, PerfilSemPermissao);
    }
    if q == null {
      return CotacaoAusente(l).resposta;
    }
    var r := q.AceitarPorOperador(u.id, obs, historico, agora);
    resp := RespostaDe(r, 400);
  }

  // ---------------------------------------------------------------- negar-operador

  const TextoNegacao: string := "Cotação negada pelo operador"

  /** The note `negar_cotacao_operador` passes: with `motivo or observacoes`
      appended when there is one. */
  function NotaDeNegacao(motivo: Option<string>, observacoes: Option<string>): (t: string)
    ensures IsPrefix(TextoNegacao, t)
  {
    var m := if Informado(motivo) then motivo else observacoes;
    if Informado(m) then TextoNegacao + ". Motivo: " + m.value else TextoNegacao
  }

  /** `negar_cotacao_operador`: role (403), lookup, a SOLICITADA-only check
      (400), then `marcar_finalizada`, whose `ValueError` is caught as a
      generic exception (500). */
  function NegarOperadorRota(l: Leitura, u: User, linha: Option<CotacaoRow>, motivo: Option<string>, observacoes: Option<string>,
                             agora: nat): (r: Efeito)
    requires LinhaValida(linha)
    ensures !EquipeOperacional(u.role) ==> r == Recusa(403, PerfilSemPermissao)
    ensures EquipeOperacional(u.role) && linha.None? ==> r == CotacaoAusente(l)
    ensures EquipeOperacional(u.role) && linha.Some? && linha.value.status != Solicitada ==>
      r == Recusa(400, StatusNaoPermiteNegar)
  {
    if !EquipeOperacional(u.role) then Recusa(403, PerfilSemPermissao)
    else if linha.None? then CotacaoAusente(l)
    else if linha.value.status != Solicitada then Recusa(400, StatusNaoPermiteNegar)
    else PeloModelo(Transicao(linha.value, Evento.MarcarFinalizada(u, Some(NotaDeNegacao(motivo, observacoes))), agora), 500)
  }

  /** The two guards are disjoint: the route lets only SOLICITADA through and
      `marcar_finalizada` refuses SOLICITADA, so the path never changes the
      quote; from SOLICITADA it always ends in a 500. */
  lemma NegarOperadorNuncaAplica(l: Leitura, u: User, linha: Option<CotacaoRow>, motivo: Option<string>,
                                 observacoes: Option<string>, agora: nat)
    requires LinhaValida(linha)
    ensures NegarOperadorRota(l, u, linha, motivo, observacoes, agora).passo.None?
    ensures EquipeOperacional(u.role) && linha.Some? && linha.value.status == Solicitada ==>
      NegarOperadorRota(l, u, linha, motivo, observacoes, agora) == Recusa(500, ErroDoModelo(NaoPodeSerMarcadaFinalizada))
  {
    if EquipeOperacional(u.role) && linha.Some? && linha.value.status == Solicitada {
      MarcarFinalizadaGuarda(linha.value, u, Some(NotaDeNegacao(motivo, observacoes)), agora);
    }
  }

  method NegarOperador(l: Leitura, u: User, q: Cotacao?, motivo: Option<string>, observacoes: Option<string>,
                       historico: Historico, agora: nat) returns (resp: Resposta)
    requires q != null ==> q.Valid()
    modifies q, historico
    ensures q != null ==> q.Valid()
    ensures var ef := NegarOperadorRota(l, u, old(LinhaDe(q)), motivo, observacoes, agora);
            resp == ef.resposta && Efetivou(ef.passo, q, historico)
  {
    if !EquipeOperacional(u.role) {
      return Resposta(403, PerfilSemPermissao);
    }
    if q == null {
      return CotacaoAusente(l).resposta;
    }
    if q.status != Solicitada {
      return Resposta(400, StatusNaoPermiteNegar);
    }
    var r := q.MarcarFinalizada(u, Some(NotaDeNegacao(motivo, observacoes)), historico, agora);
    resp := RespostaDe(r, 500);
  }

  // ---------------------------------------------------------------- enviar-resposta

  /** The operator's answer carried by the request body. */
  datatype RespostaDoOperador = RespostaDoOperador(
    empresaPrestadoraId: Json,
    valorFrete: Option<real>,
    prazoEntrega: Option<int>,
    observacoes: Option<string>)

  /** `enviar_resposta_cotacao`: role (403), lookup, ownership for a plain
      operator (403), a truthy `empresa_prestadora_id` naming an existing
      company (400), then `enviar_cotacao`, whose `ValueError` is a 400. */
  function EnviarRespostaRota(l: Leitura, u: User, linha: Option<CotacaoRow>, d: RespostaDoOperador, empresas: set<nat>,
                              agora: nat): (r: Efeito)
    requires LinhaValida(linha)
    ensures !EquipeOperacional(u.role) ==> r == Recusa(403, PerfilSemPermissao)
    ensures EquipeOperacional(u.role) && linha.None? ==> r == CotacaoAusente(l)
    ensures linha.Some? && u.role == Operador && linha.value.operadorId != Some(u.id) ==>
      r == Recusa(403, NaoResponsavel)
    ensures r.passo.Some? ==>
      && linha.Some? && (Gestor(u.role) || linha.value.operadorId == Some(u.id))
      && Truthy(d.empresaPrestadoraId) && IdDe(d.empresaPrestadoraId).Some?
      && IdDe(d.empresaPrestadoraId).value in empresas
      && linha.value.status == AceitaOperador
      && r.passo.value.depois.status == CotacaoEnviada
      && r.passo.value.depois.empresaPrestadoraId == IdDe(d.empresaPrestadoraId)
      && r.passo.value.depois.valorFrete == d.valorFrete
      && r.passo.value.depois.prazoEntrega == d.prazoEntrega
      && r.passo.value.depois.operadorId == linha.value.operadorId
      && r.passo.value.registro.usuarioId == linha.value.operadorId.value
  {
    if !EquipeOperacional(u.role) then Recusa(403, PerfilSemPermissao)
    else if linha.None? then CotacaoAusente(l)
    else
      var q := linha.value;
      if q.operadorId != Some(u.id) && u.role == Operador then Recusa(403, NaoResponsavel)
      else if !Truthy(d.empresaPrestadoraId) then Recusa(400, EmpresaPrestadoraObrigatoria)
      else if IdDe(d.empresaPrestadoraId).None? || IdDe(d.empresaPrestadoraId).value !in empresas then
        Recusa(400, EmpresaPrestadoraNaoEncontrada)
      else
        PeloModelo(Transicao(q, Evento.EnviarCotacao(d.valorFrete, d.prazoEntrega, d.observacoes,
                                                     IdDe(d.empresaPrestadoraId)), agora), 400)
  }

  /** A manager answering for an operator is logged under the assigned
      operator's id, not the manager's. */
  lemma EnvioRegistradoEmNomeDoOperador(l: Leitura, u: User, q: CotacaoRow, opId: nat, d: RespostaDoOperador, empresas: set<nat>, agora: nat)
    requires Invariante(q) && Gestor(u.role) && q.status == AceitaOperador && q.operadorId == Some(opId)
    requires d.empresaPrestadoraId.JInt? && d.empresaPrestadoraId.i > 0 && d.empresaPrestadoraId.i as nat in empresas
    ensures var r := EnviarRespostaRota(l, u, Some(q), d, empresas, agora);
            r.passo.Some? && r.passo.value.registro.usuarioId == opId
  {
  }

  method EnviarResposta(l: Leitura, u: User, q: Cotacao?, d: RespostaDoOperador, empresas: set<nat>, historico: Historico, agora: nat)
    returns (resp: Resposta)
    requires q != null ==> q.Valid()
    modifies q, historico
    ensures q != null ==> q.Valid()
    ensures var ef := EnviarRespostaRota(l, u, old(LinhaDe(q)), d, empresas, agora);
            resp == ef.resposta && Efetivou(ef.passo, q, historico)
  {
    if !EquipeOperacional(u.role) {
      return Resposta(403, PerfilSemPermissao);
    }
    if q == null {
      return CotacaoAusente(l).resposta;
    }
    if q.operadorId != Some(u.id) && u.role == Operador {
      return Resposta(403, NaoResponsavel);
    }
    if !Truthy(d.empresaPrestadoraId) {
      return Resposta(400, EmpresaPrestadoraObrigatoria);
    }
    var empresaId := IdDe(d.empresaPrestadoraId);
    if empresaId.None? || empresaId.value !in empresas {
      return Resposta(400, EmpresaPrestadoraNaoEncontrada);
    }
    var r := q.EnviarCotacao(d.valorFrete, d.prazoEntrega, d.observacoes, empresaId, historico, agora);
    resp := RespostaDe(r, 400);
  }

  // ---------------------------------------------------------------- aceitar/negar-consultor

  /** Role in {CONSULTOR, ADMINISTRADOR, GERENTE}: everyone but an operator. */
  predicate PodeDecidir(r: Role): (b: bool)
    ensures b <==> r != Operador
  {
    r == Consultor || Gestor(r)
  }

  /** `aceitar_cotacao_consultor` (`aceitar`) and `negar_cotacao_consultor`
      (not `aceitar`), which differ only in the model method they call: role
      (403), lookup, ownership for a consultant (403), then the method, whose
      `ValueError` is a 400. */
  function DecisaoConsultorRota(l: Leitura, u: User, linha: Option<CotacaoRow>, aceitar: bool, obs: Option<string>,
                                agora: nat): (r: Efeito)
    requires LinhaValida(linha)
    ensures !PodeDecidir(u.role) ==> r == Recusa(403, PerfilSemPermissao)
    ensures PodeDecidir(u.role) && linha.None? ==> r == CotacaoAusente(l)
    ensures linha.Some? && u.role == Consultor && linha.value.consultorId != u.id ==> r == Recusa(403, NaoResponsavel)
    ensures r.passo.Some? ==>
      && linha.Some? && PodeDecidir(u.role) && (u.role == Consultor ==> linha.value.consultorId == u.id)
      && linha.value.status == CotacaoEnviada
      && r.passo.value.depois.status == (if aceitar then AceitaConsultor else NegadaConsultor)
      && r.passo.value.registro.usuarioId == linha.value.consultorId
  {
    if !PodeDecidir(u.role) then Recusa(403, PerfilSemPermissao)
    else if linha.None? then CotacaoAusente(l)
    else
      var q := linha.value;
      if q.consultorId != u.id && u.role == Consultor then Recusa(403, NaoResponsavel)
      else
        var e := if aceitar then Evento.AceitarPorConsultor(obs) else Evento.NegarPorConsultor(obs);
        PeloModelo(Transicao(q, e, agora), 400)
  }

  /** An operator cannot record the client's decision, not even on a quote
      assigned to the operator. */
  lemma OperadorNaoDecide(l: Leitura, u: User, linha: Option<CotacaoRow>, aceitar: bool, obs: Option<string>, agora: nat)
    requires LinhaValida(linha) && u.role == Operador
    ensures DecisaoConsultorRota(l, u, linha, aceitar, obs, agora) == Recusa(403, PerfilSemPermissao)
  {
  }

  method AceitarConsultor(l: Leitura, u: User, q: Cotacao?, obs: Option<string>, historico: Historico, agora: nat)
    returns (resp: Resposta)
    requires q != null ==> q.Valid()
    modifies q, historico
    ensures q != null ==> q.Valid()
    ensures var ef := DecisaoConsultorRota(l, u, old(LinhaDe(q)), true, obs, agora);
            resp == ef.resposta && Efetivou(ef.passo, q, historico)
  {
    if !PodeDecidir(u.role) {
      return Resposta(403, PerfilSemPermissao);
    }
    if q == null {
      return CotacaoAusente(l).resposta;
    }
    if q.consultorId != u.id && u.role == Consultor {
      return Resposta(403, NaoResponsavel);
    }
    var r := q.AceitarPorConsultor(obs, historico, agora);
    resp := RespostaDe(r, 400);
  }

  method NegarConsultor(l: Leitura, u: User, q: Cotacao?, obs: Option<string>, historico: Historico, agora: nat)
    returns (resp: Resposta)
    requires q != null ==> q.Valid()
    modifies q, historico
    ensures q != null ==> q.Valid()
    ensures var ef := DecisaoConsultorRota(l, u, old(LinhaDe(q)), false, obs, agora);
            resp == ef.resposta && Efetivou(ef.passo, q, historico)
  {
    if !PodeDecidir(u.role) {
      return Resposta(403, PerfilSemPermissao);
    }
    if q == null {
      return CotacaoAusente(l).resposta;
    }
    if q.consultorId != u.id && u.role == Consultor {
      return Resposta(403, NaoResponsavel);
    }
    var r := q.NegarPorConsultor(obs, historico, agora);
    resp := RespostaDe(r, 400);
  }

  // ---------------------------------------------------------------- historico

  /** Who may read a quote's history: administrators and managers, its
      consultant and its assigned operator. */
  predicate PodeVisualizar(u: User, q: CotacaoRow): (b: bool)
    ensures u.role == Administrador || u.role == Gerente ==> b
    ensures u.role == Consultor || u.role == Operador ==>
      (b <==> u.id == q.consultorId || (q.operadorId.Some? && q.operadorId.value == u.id))
  {
    Gestor(u.role) || q.consultorId == u.id || q.operadorId == Some(u.id)
  }

  /** `obter_historico_cotacao`: lookup, the view rule (403), then the
      quote's entries ordered by timestamp. */
  function HistoricoRota(l: Leitura, u: User, linha: Option<CotacaoRow>, registros: seq<HistoricoEntrada>)
    : (r: Result<seq<HistoricoEntrada>, Resposta>)
    ensures linha.None? ==> r == Err(CotacaoAusente(l).resposta)
    ensures linha.Some? && !PodeVisualizar(u, linha.value) ==> r == Err(Resposta(403, PerfilSemPermissao))
    ensures r.Ok? ==> linha.Some? && PodeVisualizar(u, linha.value)
    ensures r.Ok? ==> forall e :: e in r.value <==> e in registros && e.cotacaoId == linha.value.id
    ensures r.Ok? ==> TimestampsCrescentes(r.value)
  {
    if linha.None? then Err(CotacaoAusente(l).resposta)
    else if !PodeVisualizar(u, linha.value) then Err(Resposta(403, PerfilSemPermissao))
    else Ok(HistoricoDaCotacao(registros, linha.value.id))
  }

  /** The history a permitted caller reads holds each of the quote's ledger
      entries exactly as often as the ledger does, in timestamp order; with
      the ledger written in clock order, that is the ledger's own order. */
  lemma HistoricoLidoOrdenado(l: Leitura, u: User, linha: Option<CotacaoRow>, registros: seq<HistoricoEntrada>)
    ensures var r := HistoricoRota(l, u, linha, registros);
            r.Ok? ==> TimestampsCrescentes(r.value)
                      && forall e :: multiset(r.value)[e] == if e.cotacaoId == linha.value.id then multiset(registros)[e] else 0
    ensures var r := HistoricoRota(l, u, linha, registros);
            r.Ok? && TimestampsCrescentes(registros) ==> r.value == EntradasDaCotacao(registros, linha.value.id)
  {
    if linha.Some? && TimestampsCrescentes(registros) {
      HistoricoOrdenado(registros, linha.value.id);
    }
  }

  // ---------------------------------------------------------------- a quote id with no row

  /** As written, every handler that looks a quote up answers a missing quote
      with 500 once the caller passed the checks made before the lookup, and
      changes nothing: the legacy `finalizar` and `reatribuir`, and the v1.3.3
      operator accept, operator refusal, operator answer, the consultant's
      accept and decline, and the history. */
  lemma AusenteViraErroInterno(u: User, acao: Json, obs: Option<string>, operadorId: Json, usuarios: map<nat, User>,
                               d: RespostaDoOperador, empresas: set<nat>, aceitar: bool,
                               registros: seq<HistoricoEntrada>, agora: nat)
    ensures var r := RoutesLegacy.FinalizarRota(ComoEscrito, u, None, acao, obs, agora);
            r.resposta.codigo == 500 && r.passo.None?
    ensures var r := RoutesLegacy.ReatribuirRota(ComoEscrito, u, None, operadorId, usuarios, agora);
            r.resposta.codigo == 500 && r.passo.None?
    ensures EquipeOperacional(u.role) ==>
      var r := AceitarOperadorRota(ComoEscrito, u, None, obs, agora);
      r.resposta.codigo == 500 && r.passo.None?
    ensures EquipeOperacional(u.role) ==>
      var r := NegarOperadorRota(ComoEscrito, u, None, obs, obs, agora);
      r.resposta.codigo == 500 && r.passo.None?
    ensures EquipeOperacional(u.role) ==>
      var r := EnviarRespostaRota(ComoEscrito, u, None, d, empresas, agora);
      r.resposta.codigo == 500 && r.passo.None?
    ensures PodeDecidir(u.role) ==>
      var r := DecisaoConsultorRota(ComoEscrito, u, None, aceitar, obs, agora);
      r.resposta.codigo == 500 && r.passo.None?
    ensures HistoricoRota(ComoEscrito, u, None, registros) == Err(Resposta(500, ErroInterno))
  {
  }

  /** As intended, the same handlers answer a missing quote with 404 and
      change nothing. */
  lemma AusenteNaoEncontrada(u: User, acao: Json, obs: Option<string>, operadorId: Json, usuarios: map<nat, User>,
                             d: RespostaDoOperador, empresas: set<nat>, aceitar: bool,
                             registros: seq<HistoricoEntrada>, agora: nat)
    ensures var r := RoutesLegacy.FinalizarRota(Corrigido, u, None, acao, obs, agora);
            r.resposta.codigo == 404 && r.passo.None?
    ensures var r := RoutesLegacy.ReatribuirRota(Corrigido, u, None, operadorId, usuarios, agora);
            r.resposta.codigo == 404 && r.passo.None?
    ensures EquipeOperacional(u.role) ==>
      var r := AceitarOperadorRota(Corrigido, u, None, obs, agora);
      r.resposta.codigo == 404 && r.passo.None?
    ensures EquipeOperacional(u.role) ==>
      var r := NegarOperadorRota(Corrigido, u, None, obs, obs, agora);
      r.resposta.codigo == 404 && r.passo.None?
    ensures EquipeOperacional(u.role) ==>
      var r := EnviarRespostaRota(Corrigido, u, None, d, empresas, agora);
      r.resposta.codigo == 404 && r.passo.None?
    ensures PodeDecidir(u.role) ==>
      var r := DecisaoConsultorRota(Corrigido, u, None, aceitar, obs, agora);
      r.resposta.codigo == 404 && r.passo.None?
    ensures HistoricoRota(Corrigido, u, None, registros) == Err(Resposta(404, NaoEncontrada))
  {
  }
}
