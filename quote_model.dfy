/** The quote entity of src/models/cotacao.py: its six statuses, three
    transport modes, the role and status guards, every transition method
    (the legacy `aceitar`/`responder`/`finalizar`/`marcar_finalizada`/
    `reatribuir` and the newer `aceitar_por_operador`/`enviar_cotacao`/
    `aceitar_por_consultor`/`negar_por_consultor`) and the append-only
    history ledger they write to.

    Each transition is specified by the pure function `Transicao` over a
    `CotacaoRow` (one row of the `cotacoes` table); the class `Cotacao`
    updates its fields step by step as the source does and is proved to
    agree with it. */
module QuoteModel {
  import opened Common

  // ---------------------------------------------------------------- enums

  /** `StatusCotacao`. */
  datatype Status =
    | Solicitada
    | AceitaOperador
    | CotacaoEnviada
    | AceitaConsultor
    | NegadaConsultor
    | Finalizada

  /** The enum's `.value`. */
  function StatusValue(s: Status): string {
    match s
    case Solicitada => "solicitada"
    case AceitaOperador => "aceita_operador"
    case CotacaoEnviada => "cotacao_enviada"
    case AceitaConsultor => "aceita_consultor"
    case NegadaConsultor => "negada_consultor"
    case Finalizada => "finalizada"
  }

  /** `StatusCotacao(t)`: lookup by value, None where Python raises ValueError. */
  function StatusFromValue(t: string): (r: Option<Status>)
    ensures r.Some? ==> StatusValue(r.value) == t
    ensures forall s :: StatusValue(s) == t ==> r == Some(s)
  {
    if t == "solicitada" then Some(Solicitada)
    else if t == "aceita_operador" then Some(AceitaOperador)
    else if t == "cotacao_enviada" then Some(CotacaoEnviada)
    else if t == "aceita_consultor" then Some(AceitaConsultor)
    else if t == "negada_consultor" then Some(NegadaConsultor)
    else if t == "finalizada" then Some(Finalizada)
    else None
  }

  /** Iteration order of `for status in StatusCotacao`. */
  const TodosStatus: seq<Status> :=
    [Solicitada, AceitaOperador, CotacaoEnviada, AceitaConsultor, NegadaConsultor, Finalizada]

  lemma TodosStatusCompleto(s: Status)
    ensures s in TodosStatus
  {
  }

  /** `EmpresaCotacao`, the transport mode. */
  datatype Empresa = BrcargoRodoviario | BrcargoMaritimo | FreteAereo

  function EmpresaValue(e: Empresa): string {
    match e
    case BrcargoRodoviario => "brcargo_rodoviario"
    case BrcargoMaritimo => "brcargo_maritimo"
    case FreteAereo => "frete_aereo"
  }

  /** `EmpresaCotacao(t)`. */
  function EmpresaFromValue(t: string): (r: Option<Empresa>)
    ensures r.Some? ==> EmpresaValue(r.value) == t
    ensures forall e :: EmpresaValue(e) == t ==> r == Some(e)
  {
    if t == "brcargo_rodoviario" then Some(BrcargoRodoviario)
    else if t == "brcargo_maritimo" then Some(BrcargoMaritimo)
    else if t == "frete_aereo" then Some(FreteAereo)
    else None
  }

  /** Iteration order of `for empresa in EmpresaCotacao`. */
  const TodasEmpresas: seq<Empresa> := [BrcargoRodoviario, BrcargoMaritimo, FreteAereo]

  /** `get_status_display`: a readable label for every status. */
  function StatusDisplay(s: Status): (r: string)
    ensures r != ""
  {
    match s
    case Solicitada => "Solicitada"
    case AceitaOperador => "Aceita pelo Operador"
    case CotacaoEnviada => "Cotação Enviada"
    case AceitaConsultor => "Aceita pelo Consultor"
    case NegadaConsultor => "Negada pelo Consultor"
    case Finalizada => "Finalizada"
  }

  /** Distinct statuses get distinct labels. */
  lemma StatusDisplayInjetivo(s: Status, t: Status)
    ensures StatusDisplay(s) == StatusDisplay(t) ==> s == t
  {
  }

  /** A status as stored in a history row: absent, the canonical enum, or a
      legacy raw text the enum column could not decode. */
  datatype StatusGravado = Ausente | Canonico(status: Status) | Bruto(texto: string)

  /** `get_status_value` of `HistoricoCotacao.to_dict`. */
  function GetStatusValue(x: StatusGravado): (r: Option<string>)
    ensures r.None? <==> x.Ausente?
    ensures x.Canonico? ==> StatusFromValue(r.value) == Some(x.status)
    ensures x.Bruto? ==> r == Some(x.texto)
  {
    match x
    case Ausente => None
    case Canonico(s) => Some(StatusValue(s))
    case Bruto(t) => Some(t)
  }

  // ---------------------------------------------------------------- users

  /** `TipoUsuario`. */
  datatype Role = Consultor | Operador | Gerente | Administrador

  /** The caller or another user: id, role and display name. */
  datatype User = User(id: nat, role: Role, nome: String)

  type String = string

  /** Role in {OPERADOR, ADMINISTRADOR, GERENTE}. */
  predicate EquipeOperacional(r: Role) {
    r == Operador || r == Administrador || r == Gerente
  }

  /** Role in {ADMINISTRADOR, GERENTE}. */
  predicate Gestor(r: Role) {
    r == Administrador || r == Gerente
  }

  // ---------------------------------------------------------------- guards

  /** The three statuses after the quote was sent. */
  predicate PosCotacao(s: Status) {
    s == CotacaoEnviada || s == AceitaConsultor || s == NegadaConsultor
  }

  /** `pode_ser_aceita_por`. */
  predicate PodeSerAceitaPor(status: Status, u: User)
    ensures PodeSerAceitaPor(status, u) <==> status == Solicitada && u.role != Consultor
  {
    status == Solicitada && EquipeOperacional(u.role)
  }

  /** `pode_ser_respondida_por`. */
  predicate PodeSerRespondidaPor(status: Status, operadorId: Option<nat>, u: User)
    ensures PodeSerRespondidaPor(status, operadorId, u) ==> status == AceitaOperador
    ensures u.role == Consultor || u.role == Operador ==>
      (PodeSerRespondidaPor(status, operadorId, u) <==> status == AceitaOperador && operadorId == Some(u.id))
  {
    status == AceitaOperador && (operadorId == Some(u.id) || Gestor(u.role))
  }

  /** `pode_ser_finalizada_por`. */
  predicate PodeSerFinalizadaPor(status: Status, operadorId: Option<nat>, u: User)
    ensures PodeSerFinalizadaPor(status, operadorId, u) ==>
      status != Solicitada && status != AceitaOperador && status != Finalizada
    ensures u.role == Consultor || u.role == Operador ==>
      (PodeSerFinalizadaPor(status, operadorId, u) <==> PosCotacao(status) && operadorId == Some(u.id))
  {
    PosCotacao(status) && (operadorId == Some(u.id) || Gestor(u.role))
  }

  /** `pode_ser_reatribuida_por`: role only, whatever the status. */
  predicate PodeSerReatribuidaPor(u: User)
    ensures PodeSerReatribuidaPor(u) <==> u.role != Consultor && u.role != Operador
  {
    Gestor(u.role)
  }

  // ---------------------------------------------------------------- rows

  datatype Endereco = Endereco(cep: string, endereco: string, cidade: string, estado: string)

  /** The shipment columns the modelled rules read or write; the preferred
      collection date is an instant of the abstract clock. */
  datatype Envio = Envio(clienteNome: string, clienteCnpj: string, origem: Endereco, destino: Endereco, pesoKg: real,
                         dataColetaPreferencial: Option<nat>)

  /** One row of the `cotacoes` table; instants are readings of an abstract clock. */
  datatype CotacaoRow = CotacaoRow(
    id: nat,
    numero: string,
    consultorId: nat,
    operadorId: Option<nat>,
    empresaPrestadoraId: Option<nat>,
    empresaTransporte: Empresa,
    status: Status,
    dataSolicitacao: nat,
    dataAceiteOperador: Option<nat>,
    dataCotacaoEnviada: Option<nat>,
    dataRespostaCliente: Option<nat>,
    dataFinalizacao: Option<nat>,
    envio: Envio,
    valorFrete: Option<real>,
    prazoEntrega: Option<int>,
    observacoesCotacao: Option<string>)

  /** What the transition methods keep true of every row: an operator is
      assigned once the quote left SOLICITADA, and each transition timestamp
      is set exactly in the statuses that follow its transition. */
  predicate Invariante(q: CotacaoRow) {
    && (q.status != Solicitada ==> q.operadorId.Some?)
    && (q.dataAceiteOperador.Some? <==> q.status != Solicitada)
    && (q.dataCotacaoEnviada.Some? <==> (PosCotacao(q.status) || q.status == Finalizada))
    && (q.status == AceitaConsultor || q.status == NegadaConsultor ==> q.dataRespostaCliente.Some?)
    && (q.dataRespostaCliente.Some? ==> q.status == AceitaConsultor || q.status == NegadaConsultor || q.status == Finalizada)
    && (q.dataFinalizacao.Some? <==> q.status == Finalizada)
  }

  /** A freshly created row: SOLICITADA, no operator, no later timestamps. */
  function NovaLinha(id: nat, numero: string, consultorId: nat, empresa: Empresa, envio: Envio, agora: nat): (q: CotacaoRow)
    ensures Invariante(q) && q.status == Solicitada && q.operadorId == None
  {
    CotacaoRow(id, numero, consultorId, None, None, empresa, Solicitada, agora,
               None, None, None, None, envio, None, None, None)
  }

  // ---------------------------------------------------------------- history

  /** The free-text `observacoes` of a history row, kept as its template and arguments. */
  datatype Nota =
    | Texto(texto: Option<string>)
    | AceitaPeloOperador(nomeOperador: string)
    | Respondida(valorFrete: Option<real>, prazoEntrega: Option<int>)
    | DecisaoDoCliente(aprovada: bool)
    | MarcadaFinalizada
    | Reatribuida(operadorAnterior: Option<nat>, novoOperador: string)
    | Enviada(valorFrete: Option<real>, prazoEntrega: Option<int>, observacoes: Option<string>)
    | Criada
    | CriadaPeloConsultor(nomeConsultor: string)

  /** `observacoes or <default>`: the caller's text when it is non-empty. */
  function OuPadrao(obs: Option<string>, padrao: Nota): Nota {
    if obs.Some? && obs.value != "" then Texto(obs) else padrao
  }

  /** One row of `historico_cotacoes`. */
  datatype HistoricoEntrada = HistoricoEntrada(
    cotacaoId: nat,
    usuarioId: nat,
    statusAnterior: Option<Status>,
    statusNovo: Status,
    observacoes: Nota,
    timestamp: nat)

  /** The history table: `registrar_mudanca` appends, nothing else writes. */
  class Historico {
    var registros: seq<HistoricoEntrada>

    constructor ()
      ensures registros == []
    {
      registros := [];
    }

    /** `registrar_mudanca`: appends one entry and returns it. */
    method RegistrarMudanca(cotacaoId: nat, usuarioId: nat, anterior: Option<Status>, novo: Status,
                            obs: Nota, agora: nat) returns (h: HistoricoEntrada)
      modifies this
      ensures h == HistoricoEntrada(cotacaoId, usuarioId, anterior, novo, obs, agora)
      ensures registros == old(registros) + [h]
    {
      h := HistoricoEntrada(cotacaoId, usuarioId, anterior, novo, obs, agora);
      registros := registros + [h];
    }
  }

  /** `filter_by(cotacao_id=...)`: the entries of one quote, in ledger order,
      each as often as the ledger holds it. */
  function EntradasDaCotacao(registros: seq<HistoricoEntrada>, cotacaoId: nat): (r: seq<HistoricoEntrada>)
    ensures |r| <= |registros|
    ensures forall i :: 0 <= i < |r| ==> r[i].cotacaoId == cotacaoId && r[i] in registros
    ensures forall e :: multiset(r)[e] == if e.cotacaoId == cotacaoId then multiset(registros)[e] else 0
    decreases |registros|
  {
    if registros == [] then []
    else
      var prefixo := registros[..|registros| - 1];
      var e := registros[|registros| - 1];
      assert registros == prefixo + [e];
      var resto := EntradasDaCotacao(prefixo, cotacaoId);
      if e.cotacaoId == cotacaoId then resto + [e] else resto
  }

  /** Appending one entry adds it to its own quote's entries and to no other. */
  lemma HistoricoAposRegistro(registros: seq<HistoricoEntrada>, e: HistoricoEntrada, cotacaoId: nat)
    ensures EntradasDaCotacao(registros + [e], cotacaoId)
         == EntradasDaCotacao(registros, cotacaoId) + (if e.cotacaoId == cotacaoId then [e] else [])
  {
    assert (registros + [e])[..|registros|] == registros;
  }

  predicate TimestampsCrescentes(r: seq<HistoricoEntrada>) {
    forall i, j :: 0 <= i < j < |r| ==> r[i].timestamp <= r[j].timestamp
  }

  /** Places `x` after every entry of `t` whose timestamp is not later than
      its own, so that entries with equal timestamps keep their order. */
  function InserirPorTimestamp(t: seq<HistoricoEntrada>, x: HistoricoEntrada): (r: seq<HistoricoEntrada>)
    ensures multiset(r) == multiset(t) + multiset{x}
    ensures TimestampsCrescentes(t) ==> TimestampsCrescentes(r)
    decreases |t|
  {
    if t == [] || t[|t| - 1].timestamp <= x.timestamp then t + [x]
    else
      var prefixo := t[..|t| - 1];
      var y := t[|t| - 1];
      assert t == prefixo + [y];
      var r := InserirPorTimestamp(prefixo, x);
      assert TimestampsCrescentes(t) ==> TimestampsCrescentes(r + [y]) by {
        if TimestampsCrescentes(t) {
          forall k | 0 <= k < |r| ensures r[k].timestamp <= y.timestamp {
            assert r[k] in multiset(r);
            if r[k] != x {
              assert r[k] in multiset(prefixo);
            }
          }
        }
      }
      r + [y]
  }

  /** `order_by(timestamp.asc())`: a stable insertion sort by timestamp. */
  function OrdenarPorTimestamp(s: seq<HistoricoEntrada>): (r: seq<HistoricoEntrada>)
    ensures multiset(r) == multiset(s)
    ensures TimestampsCrescentes(r)
    decreases |s|
  {
    if s == [] then []
    else
      assert s == s[..|s| - 1] + [s[|s| - 1]];
      InserirPorTimestamp(OrdenarPorTimestamp(s[..|s| - 1]), s[|s| - 1])
  }

  /** A sequence already in timestamp order is left as it is. */
  lemma {:induction false} OrdenadoFica(s: seq<HistoricoEntrada>)
    requires TimestampsCrescentes(s)
    ensures OrdenarPorTimestamp(s) == s
    decreases |s|
  {
    if s != [] {
      var prefixo := s[..|s| - 1];
      assert TimestampsCrescentes(prefixo);
      OrdenadoFica(prefixo);
      assert prefixo + [s[|s| - 1]] == s;
    }
  }

  /** `obter_historico_cotacao`: the quote's entries ordered by timestamp,
      each as often as the ledger holds it. */
  function HistoricoDaCotacao(registros: seq<HistoricoEntrada>, cotacaoId: nat): (r: seq<HistoricoEntrada>)
    ensures TimestampsCrescentes(r)
    ensures forall e :: multiset(r)[e] == if e.cotacaoId == cotacaoId then multiset(registros)[e] else 0
    ensures forall e :: e in r <==> e in registros && e.cotacaoId == cotacaoId
  {
    var r := OrdenarPorTimestamp(EntradasDaCotacao(registros, cotacaoId));
    assert forall e :: e in r <==> e in multiset(r);
    r
  }

  /** With a ledger written in clock order, the sorted history is the
      ledger's own order: the two agree while the clock never goes back. */
  lemma {:induction false} HistoricoOrdenado(registros: seq<HistoricoEntrada>, cotacaoId: nat)
    requires TimestampsCrescentes(registros)
    ensures HistoricoDaCotacao(registros, cotacaoId) == EntradasDaCotacao(registros, cotacaoId)
  {
    var d := EntradasDaCotacao(registros, cotacaoId);
    EntradasOrdenadas(registros, cotacaoId);
    OrdenadoFica(d);
  }

  lemma {:induction false} EntradasOrdenadas(registros: seq<HistoricoEntrada>, cotacaoId: nat)
    requires TimestampsCrescentes(registros)
    ensures TimestampsCrescentes(EntradasDaCotacao(registros, cotacaoId))
    decreases |registros|
  {
    if registros != [] {
      var prefixo := registros[..|registros| - 1];
      assert TimestampsCrescentes(prefixo);
      EntradasOrdenadas(prefixo, cotacaoId);
    }
  }

  /** An entry no earlier than any stored one ends its quote's history,
      whatever order the ledger was written in before it. */
  lemma RegistroRecenteNoFim(registros: seq<HistoricoEntrada>, e: HistoricoEntrada)
    requires forall i :: 0 <= i < |registros| ==> registros[i].timestamp <= e.timestamp
    ensures HistoricoDaCotacao(registros + [e], e.cotacaoId) == HistoricoDaCotacao(registros, e.cotacaoId) + [e]
  {
    HistoricoAposRegistro(registros, e, e.cotacaoId);
    var d := EntradasDaCotacao(registros, e.cotacaoId);
    var h := OrdenarPorTimestamp(d);
    assert (d + [e])[..|d|] == d;
    if h != [] {
      var u := h[|h| - 1];
      assert u in multiset(d);
      assert u in registros;
    }
  }

  // ---------------------------------------------------------------- transitions

  /** The source's `ValueError`s, one per raising method. */
  datatype ErroModelo =
    | NaoPodeSerAceita
    | NaoPodeSerRespondida
    | NaoPodeSerFinalizada
    | NaoPodeSerMarcadaFinalizada
    | SemPermissaoReatribuir
    | IndisponivelParaAceitacao
    | StatusInadequadoParaEnvio
    | IndisponivelParaAceitacaoConsultor
    | IndisponivelParaNegacaoConsultor

  /** One call of a transition method, with its arguments. */
  datatype Evento =
    | Aceitar(operador: User)
    | Responder(operador: User, valorFrete: Option<real>, prazoEntrega: Option<int>, observacoes: Option<string>)
    | Finalizar(usuario: User, aprovada: bool, observacoes: Option<string>)
    | MarcarFinalizada(usuario: User, observacoes: Option<string>)
    | Reatribuir(admin: User, novoOperador: User)
    | AceitarPorOperador(operadorId: nat, observacoes: Option<string>)
    | EnviarCotacao(valorFrete: Option<real>, prazoEntrega: Option<int>, observacoes: Option<string>,
                    empresaPrestadoraId: Option<nat>)
    | AceitarPorConsultor(observacoes: Option<string>)
    | NegarPorConsultor(observacoes: Option<string>)

  /** A successful transition: the new row and the history entry it appends. */
  datatype Passo = Passo(depois: CotacaoRow, registro: HistoricoEntrada)

  /** Position of a status along the lifecycle
      SOLICITADA -> ACEITA_OPERADOR -> COTACAO_ENVIADA -> {ACEITA, NEGADA} -> FINALIZADA. */
  function Posto(s: Status): nat {
    match s
    case Solicitada => 0
    case AceitaOperador => 1
    case CotacaoEnviada => 2
    case AceitaConsultor => 3
    case NegadaConsultor => 3
    case Finalizada => 4
  }

  /** The columns no transition touches. */
  predicate MesmaIdentidade(q: CotacaoRow, d: CotacaoRow) {
    && d.id == q.id && d.numero == q.numero && d.consultorId == q.consultorId
    && d.empresaTransporte == q.empresaTransporte && d.dataSolicitacao == q.dataSolicitacao
    && d.envio == q.envio
  }

  /** What every transition method does, stated on rows: check the guard or
      the current status, assign the fields, and describe the one history
      entry it appends. */
  function Transicao(q: CotacaoRow, e: Evento, agora: nat): (r: Result<Passo, ErroModelo>)
    requires Invariante(q)
    ensures r.Ok? ==> Invariante(r.value.depois) && MesmaIdentidade(q, r.value.depois)
    ensures r.Ok? ==> (&& r.value.registro.cotacaoId == q.id
                       && r.value.registro.statusAnterior == Some(q.status)
                       && r.value.registro.statusNovo == r.value.depois.status
                       && r.value.registro.timestamp == agora)
    ensures r.Ok? ==> Posto(q.status) <= Posto(r.value.depois.status)
  {
    match e
    case Aceitar(op) =>
      if !PodeSerAceitaPor(q.status, op) then Err(NaoPodeSerAceita)
      else Ok(Passo(
        q.(operadorId := Some(op.id), status := AceitaOperador, dataAceiteOperador := Some(agora)),
        HistoricoEntrada(q.id, op.id, Some(Solicitada), AceitaOperador, AceitaPeloOperador(op.nome), agora)))
    case Responder(op, valor, prazo, obs) =>
      if !PodeSerRespondidaPor(q.status, q.operadorId, op) then Err(NaoPodeSerRespondida)
      else Ok(Passo(
        q.(valorFrete := valor, prazoEntrega := prazo, observacoesCotacao := obs,
           status := CotacaoEnviada, dataCotacaoEnviada := Some(agora)),
        HistoricoEntrada(q.id, op.id, Some(AceitaOperador), CotacaoEnviada, Respondida(valor, prazo), agora)))
    case Finalizar(u, aprovada, obs) =>
      if !PodeSerFinalizadaPor(q.status, q.operadorId, u) then Err(NaoPodeSerFinalizada)
      else
        var novo := if aprovada then AceitaConsultor else NegadaConsultor;
        Ok(Passo(
          q.(status := novo, dataRespostaCliente := Some(agora)),
          HistoricoEntrada(q.id, u.id, Some(q.status), novo, OuPadrao(obs, DecisaoDoCliente(aprovada)), agora)))
    case MarcarFinalizada(u, obs) =>
      if !PodeSerFinalizadaPor(q.status, q.operadorId, u) then Err(NaoPodeSerMarcadaFinalizada)
      else Ok(Passo(
        q.(status := Finalizada, dataFinalizacao := Some(agora)),
        HistoricoEntrada(q.id, u.id, Some(q.status), Finalizada, OuPadrao(obs, MarcadaFinalizada), agora)))
    case Reatribuir(admin, novoOp) =>
      if !PodeSerReatribuidaPor(admin) then Err(SemPermissaoReatribuir)
      else Ok(Passo(
        q.(operadorId := Some(novoOp.id)),
        HistoricoEntrada(q.id, admin.id, Some(q.status), q.status, Reatribuida(q.operadorId, novoOp.nome), agora)))
    case AceitarPorOperador(opId, obs) =>
      if q.status != Solicitada then Err(IndisponivelParaAceitacao)
      else Ok(Passo(
        q.(operadorId := Some(opId), status := AceitaOperador, dataAceiteOperador := Some(agora)),
        HistoricoEntrada(q.id, opId, Some(q.status), AceitaOperador, Texto(obs), agora)))
    case EnviarCotacao(valor, prazo, obs, empresaId) =>
      if q.status != AceitaOperador then Err(StatusInadequadoParaEnvio)
      else Ok(Passo(
        q.(valorFrete := valor, prazoEntrega := prazo, observacoesCotacao := obs,
           empresaPrestadoraId := empresaId, status := CotacaoEnviada, dataCotacaoEnviada := Some(agora)),
        HistoricoEntrada(q.id, q.operadorId.value, Some(q.status), CotacaoEnviada, Enviada(valor, prazo, obs), agora)))
    case AceitarPorConsultor(obs) =>
      if q.status != CotacaoEnviada then Err(IndisponivelParaAceitacaoConsultor)
      else Ok(Passo(
        q.(status := AceitaConsultor, dataRespostaCliente := Some(agora)),
        HistoricoEntrada(q.id, q.consultorId, Some(q.status), AceitaConsultor, Texto(obs), agora)))
    case NegarPorConsultor(obs) =>
      if q.status != CotacaoEnviada then Err(IndisponivelParaNegacaoConsultor)
      else Ok(Passo(
        q.(status := NegadaConsultor, dataRespostaCliente := Some(agora)),
        HistoricoEntrada(q.id, q.consultorId, Some(q.status), NegadaConsultor, Texto(obs), agora)))
  }

  /** The newer methods check only the status, each against its single
      "from" state, and on success land in its single "to" state. */
  lemma NovosMetodosUmEstadoDeOrigem(q: CotacaoRow, e: Evento, agora: nat)
    requires Invariante(q)
    ensures e.AceitarPorOperador? ==>
      (Transicao(q, e, agora).Ok? <==> q.status == Solicitada)
      && (Transicao(q, e, agora).Ok? ==> (Transicao(q, e, agora).value.depois.status == AceitaOperador
                                         && Transicao(q, e, agora).value.depois.operadorId == Some(e.operadorId)))
    ensures e.EnviarCotacao? ==>
      (Transicao(q, e, agora).Ok? <==> q.status == AceitaOperador)
      && (Transicao(q, e, agora).Ok? ==> Transicao(q, e, agora).value.depois.status == CotacaoEnviada)
    ensures e.AceitarPorConsultor? ==>
      (Transicao(q, e, agora).Ok? <==> q.status == CotacaoEnviada)
      && (Transicao(q, e, agora).Ok? ==> Transicao(q, e, agora).value.depois.status == AceitaConsultor)
    ensures e.NegarPorConsultor? ==>
      (Transicao(q, e, agora).Ok? <==> q.status == CotacaoEnviada)
      && (Transicao(q, e, agora).Ok? ==> Transicao(q, e, agora).value.depois.status == NegadaConsultor)
  {
  }

  /** Legacy `aceitar` also requires an operational role; `aceitar_por_operador`
      accepts any operator id. */
  lemma AceitarExigeEquipe(q: CotacaoRow, op: User, obs: Option<string>, agora: nat)
    requires Invariante(q)
    ensures Transicao(q, Aceitar(op), agora).Ok? <==> q.status == Solicitada && EquipeOperacional(op.role)
    ensures Transicao(q, Aceitar(op), agora).Ok? ==> Transicao(q, AceitarPorOperador(op.id, obs), agora).Ok?
    ensures Transicao(q, Aceitar(op), agora).Ok? ==>
      Transicao(q, Aceitar(op), agora).value.depois == Transicao(q, AceitarPorOperador(op.id, obs), agora).value.depois
  {
  }

  /** `marcar_finalizada` succeeds exactly from the three post-quote statuses,
      for the assigned operator or a manager, and yields FINALIZADA. */
  lemma MarcarFinalizadaGuarda(q: CotacaoRow, u: User, obs: Option<string>, agora: nat)
    requires Invariante(q)
    ensures Transicao(q, MarcarFinalizada(u, obs), agora).Ok?
        <==> PosCotacao(q.status) && (q.operadorId == Some(u.id) || Gestor(u.role))
    ensures Transicao(q, MarcarFinalizada(u, obs), agora).Ok? ==>
      Transicao(q, MarcarFinalizada(u, obs), agora).value.depois.status == Finalizada
  {
  }

  /** FINALIZADA is terminal: the only method that succeeds on a finalized
      quote is `reatribuir`, and it keeps the status. */
  lemma FinalizadaTerminal(q: CotacaoRow, e: Evento, agora: nat)
    requires Invariante(q) && q.status == Finalizada
    ensures Transicao(q, e, agora).Ok? ==> e.Reatribuir? && Transicao(q, e, agora).value.depois.status == Finalizada
  {
  }

  /** `reatribuir`: allowed exactly for managers, in every status; it replaces
      the operator, keeps the status and logs an entry whose previous and new
      statuses coincide. */
  lemma ReatribuirQualquerStatus(q: CotacaoRow, admin: User, novoOp: User, agora: nat)
    requires Invariante(q)
    ensures Transicao(q, Reatribuir(admin, novoOp), agora).Ok? <==> Gestor(admin.role)
    ensures Transicao(q, Reatribuir(admin, novoOp), agora).Ok? ==>
      var p := Transicao(q, Reatribuir(admin, novoOp), agora).value;
      p.depois == q.(operadorId := Some(novoOp.id))
      && p.registro.statusAnterior == Some(p.registro.statusNovo)
  {
  }

  /** Legacy `finalizar` records the client's decision: ACEITA_CONSULTOR when
      approved, NEGADA_CONSULTOR otherwise, stamping the response time. Since
      its guard is `pode_ser_finalizada_por`, it also accepts a quote that
      already holds a decision and can flip it. */
  lemma FinalizarRegistraDecisao(q: CotacaoRow, u: User, aprovada: bool, obs: Option<string>, agora: nat)
    requires Invariante(q)
    ensures Transicao(q, Finalizar(u, aprovada, obs), agora).Ok? <==> PodeSerFinalizadaPor(q.status, q.operadorId, u)
    ensures Transicao(q, Finalizar(u, aprovada, obs), agora).Ok? ==>
      var d := Transicao(q, Finalizar(u, aprovada, obs), agora).value.depois;
      d.status == (if aprovada then AceitaConsultor else NegadaConsultor)
      && d.dataRespostaCliente == Some(agora)
  {
  }

  /** A concrete flip: the assigned operator turns an accepted decision into a refusal. */
  lemma FinalizarInverteDecisao(q: CotacaoRow, u: User, agora: nat)
    requires Invariante(q) && q.status == AceitaConsultor && q.operadorId == Some(u.id)
    ensures Transicao(q, Finalizar(u, false, None), agora).Ok?
    ensures Transicao(q, Finalizar(u, false, None), agora).value.depois.status == NegadaConsultor
  {
  }

  // ---------------------------------------------------------------- the entity

  /** Outcome of a model method: done, or the `ValueError` it raised. */
  datatype Resultado = Feito | Falhou(erro: ErroModelo)

  /** `Cotacao`: the mutable entity. Fields mirror the columns of `CotacaoRow`. */
  class Cotacao {
    const id: nat
    var numeroCotacao: string
    const consultorId: nat
    var operadorId: Option<nat>
    var empresaPrestadoraId: Option<nat>
    const empresaTransporte: Empresa
    var status: Status
    var dataSolicitacao: nat
    var dataAceiteOperador: Option<nat>
    var dataCotacaoEnviada: Option<nat>
    var dataRespostaCliente: Option<nat>
    var dataFinalizacao: Option<nat>
    const envio: Envio
    var valorFrete: Option<real>
    var prazoEntrega: Option<int>
    var observacoesCotacao: Option<string>

    /** The row this object stands for. */
    function Row(): CotacaoRow
      reads this
    {
      CotacaoRow(id, numeroCotacao, consultorId, operadorId, empresaPrestadoraId, empresaTransporte,
                 status, dataSolicitacao, dataAceiteOperador, dataCotacaoEnviada, dataRespostaCliente,
                 dataFinalizacao, envio, valorFrete, prazoEntrega, observacoesCotacao)
    }

    predicate Valid()
      reads this
    {
      Invariante(Row())
    }

    /** `Cotacao(**kwargs)` with the defaults of the model: SOLICITADA, no
        operator, requested now. The number is generated by the caller. */
    constructor (id: nat, numero: string, consultorId: nat, empresa: Empresa, envio: Envio, agora: nat)
      ensures Row() == NovaLinha(id, numero, consultorId, empresa, envio, agora)
      ensures Valid()
    {
      this.id := id;
      this.numeroCotacao := numero;
      this.consultorId := consultorId;
      this.operadorId := None;
      this.empresaPrestadoraId := None;
      this.empresaTransporte := empresa;
      this.status := Solicitada;
      this.dataSolicitacao := agora;
      this.dataAceiteOperador := None;
      this.dataCotacaoEnviada := None;
      this.dataRespostaCliente := None;
      this.dataFinalizacao := None;
      this.envio := envio;
      this.valorFrete := None;
      this.prazoEntrega := None;
      this.observacoesCotacao := None;
    }

    /** `aceitar`. */
    method Aceitar(operador: User, historico: Historico, agora: nat) returns (r: Resultado)
      requires Valid()
      modifies this, historico
      ensures Valid()
      ensures Aplicou(Transicao(old(Row()), Evento.Aceitar(operador), agora), r, historico)
    {
      ghost var t := Transicao(Row(), Evento.Aceitar(operador), agora);
      if !PodeSerAceitaPor(status, operador) {
        assert t == Err(NaoPodeSerAceita);
        return Falhou(NaoPodeSerAceita);
      }
      operadorId := Some(operador.id);
      status := AceitaOperador;
      dataAceiteOperador := Some(agora);
      var _ := historico.RegistrarMudanca(id, operador.id, Some(Solicitada), AceitaOperador,
                                          AceitaPeloOperador(operador.nome), agora);
      r := Feito;
    }

    /** `responder`. */
    method Responder(operador: User, valor: Option<real>, prazo: Option<int>, obs: Option<string>,
                     historico: Historico, agora: nat) returns (r: Resultado)
      requires Valid()
      modifies this, historico
      ensures Valid()
      ensures Aplicou(Transicao(old(Row()), Evento.Responder(operador, valor, prazo, obs), agora), r, historico)
    {
      ghost var t := Transicao(Row(), Evento.Responder(operador, valor, prazo, obs), agora);
      if !PodeSerRespondidaPor(status, operadorId, operador) {
        assert t == Err(NaoPodeSerRespondida);
        return Falhou(NaoPodeSerRespondida);
      }
      valorFrete := valor;
      prazoEntrega := prazo;
      observacoesCotacao := obs;
      status := CotacaoEnviada;
      dataCotacaoEnviada := Some(agora);
      assert Row() == t.value.depois;
      var _ := historico.RegistrarMudanca(id, operador.id, Some(AceitaOperador), CotacaoEnviada,
                                          Respondida(valor, prazo), agora);
      r := Feito;
    }

    /** `finalizar(aprovada)`. */
    method Finalizar(usuario: User, aprovada: bool, obs: Option<string>, historico: Historico, agora: nat)
      returns (r: Resultado)
      requires Valid()
      modifies this, historico
      ensures Valid()
      ensures Aplicou(Transicao(old(Row()), Evento.Finalizar(usuario, aprovada, obs), agora), r, historico)
    {
      ghost var t := Transicao(Row(), Evento.Finalizar(usuario, aprovada, obs), agora);
      if !PodeSerFinalizadaPor(status, operadorId, usuario) {
        assert t == Err(NaoPodeSerFinalizada);
        return Falhou(NaoPodeSerFinalizada);
      }
      var anterior := status;
      if aprovada {
        status := AceitaConsultor;
      } else {
        status := NegadaConsultor;
      }
      dataRespostaCliente := Some(agora);
      var _ := historico.RegistrarMudanca(id, usuario.id, Some(anterior), status,
                                          OuPadrao(obs, DecisaoDoCliente(aprovada)), agora);
      r := Feito;
    }

    /** `marcar_finalizada`. */
    method MarcarFinalizada(usuario: User, obs: Option<string>, historico: Historico, agora: nat)
      returns (r: Resultado)
      requires Valid()
      modifies this, historico
      ensures Valid()
      ensures Aplicou(Transicao(old(Row()), Evento.MarcarFinalizada(usuario, obs), agora), r, historico)
    {
      ghost var t := Transicao(Row(), Evento.MarcarFinalizada(usuario, obs), agora);
      if !PodeSerFinalizadaPor(status, operadorId, usuario) {
        assert t == Err(NaoPodeSerMarcadaFinalizada);
        return Falhou(NaoPodeSerMarcadaFinalizada);
      }
      var anterior := status;
      status := Finalizada;
      dataFinalizacao := Some(agora);
      var _ := historico.RegistrarMudanca(id, usuario.id, Some(anterior), Finalizada,
                                          OuPadrao(obs, Nota.MarcadaFinalizada), agora);
      r := Feito;
    }

    /** `reatribuir`. */
    method Reatribuir(admin: User, novoOperador: User, historico: Historico, agora: nat) returns (r: Resultado)
      requires Valid()
      modifies this, historico
      ensures Valid()
      ensures Aplicou(Transicao(old(Row()), Evento.Reatribuir(admin, novoOperador), agora), r, historico)
    {
      ghost var t := Transicao(Row(), Evento.Reatribuir(admin, novoOperador), agora);
      if !PodeSerReatribuidaPor(admin) {
        assert t == Err(SemPermissaoReatribuir);
        return Falhou(SemPermissaoReatribuir);
      }
      var anterior := operadorId;
      operadorId := Some(novoOperador.id);
      var _ := historico.RegistrarMudanca(id, admin.id, Some(status), status,
                                          Reatribuida(anterior, novoOperador.nome), agora);
      r := Feito;
    }

    /** `aceitar_por_operador`. */
    method AceitarPorOperador(opId: nat, obs: Option<string>, historico: Historico, agora: nat)
      returns (r: Resultado)
      requires Valid()
      modifies this, historico
      ensures Valid()
      ensures Aplicou(Transicao(old(Row()), Evento.AceitarPorOperador(opId, obs), agora), r, historico)
    {
      ghost var t := Transicao(Row(), Evento.AceitarPorOperador(opId, obs), agora);
      if status != Solicitada {
        assert t == Err(IndisponivelParaAceitacao);
        return Falhou(IndisponivelParaAceitacao);
      }
      var anterior := status;
      operadorId := Some(opId);
      status := AceitaOperador;
      dataAceiteOperador := Some(agora);
      var _ := historico.RegistrarMudanca(id, opId, Some(anterior), status, Texto(obs), agora);
      r := Feito;
    }

    /** `enviar_cotacao`. */
    method EnviarCotacao(valor: Option<real>, prazo: Option<int>, obs: Option<string>, empresaId: Option<nat>,
                         historico: Historico, agora: nat) returns (r: Resultado)
      requires Valid()
      modifies this, historico
      ensures Valid()
      ensures Aplicou(Transicao(old(Row()), Evento.EnviarCotacao(valor, prazo, obs, empresaId), agora), r, historico)
    {
      ghost var t := Transicao(Row(), Evento.EnviarCotacao(valor, prazo, obs, empresaId), agora);
      if status != AceitaOperador {
        assert t == Err(StatusInadequadoParaEnvio);
        return Falhou(StatusInadequadoParaEnvio);
      }
      var anterior := status;
      valorFrete := valor;
      prazoEntrega := prazo;
      observacoesCotacao := obs;
      empresaPrestadoraId := empresaId;
      status := CotacaoEnviada;
      dataCotacaoEnviada := Some(agora);
      assert Row() == t.value.depois;
      var _ := historico.RegistrarMudanca(id, operadorId.value, Some(anterior), status,
                                          Enviada(valor, prazo, obs), agora);
      r := Feito;
    }

    /** `aceitar_por_consultor`. */
    method AceitarPorConsultor(obs: Option<string>, historico: Historico, agora: nat) returns (r: Resultado)
      requires Valid()
      modifies this, historico
      ensures Valid()
      ensures Aplicou(Transicao(old(Row()), Evento.AceitarPorConsultor(obs), agora), r, historico)
    {
      ghost var t := Transicao(Row(), Evento.AceitarPorConsultor(obs), agora);
      if status != CotacaoEnviada {
        assert t == Err(IndisponivelParaAceitacaoConsultor);
        return Falhou(IndisponivelParaAceitacaoConsultor);
      }
      var anterior := status;
      status := AceitaConsultor;
      dataRespostaCliente := Some(agora);
      var _ := historico.RegistrarMudanca(id, consultorId, Some(anterior), status, Texto(obs), agora);
      r := Feito;
    }

    /** `negar_por_consultor`. */
    method NegarPorConsultor(obs: Option<string>, historico: Historico, agora: nat) returns (r: Resultado)
      requires Valid()
      modifies this, historico
      ensures Valid()
      ensures Aplicou(Transicao(old(Row()), Evento.NegarPorConsultor(obs), agora), r, historico)
    {
      ghost var t := Transicao(Row(), Evento.NegarPorConsultor(obs), agora);
      if status != CotacaoEnviada {
        assert t == Err(IndisponivelParaNegacaoConsultor);
        return Falhou(IndisponivelParaNegacaoConsultor);
      }
      var anterior := status;
      status := NegadaConsultor;
      dataRespostaCliente := Some(agora);
      var _ := historico.RegistrarMudanca(id, consultorId, Some(anterior), status, Texto(obs), agora);
      r := Feito;
    }

    /** The object's new state and the ledger agree with the specification
        of the call: on success the row is the specified one and exactly the
        specified entry was appended; on failure nothing changed. */
    twostate predicate Aplicou(t: Result<Passo, ErroModelo>, r: Resultado, historico: Historico)
      reads this, historico
    {
      match t
      case Ok(p) => r == Feito && Row() == p.depois && historico.registros == old(historico.registros) + [p.registro]
      case Err(e) => r == Falhou(e) && Row() == old(Row()) && historico.registros == old(historico.registros)
    }
  }

  /** `Cotacao.criar_cotacao`: a new SOLICITADA quote and its creation entry
      (no previous status). */
  method CriarCotacao(id: nat, numero: string, consultorId: nat, empresa: Empresa, envio: Envio,
                      historico: Historico, agora: nat) returns (c: Cotacao)
    modifies historico
    ensures fresh(c) && c.Valid()
    ensures c.Row() == NovaLinha(id, numero, consultorId, empresa, envio, agora)
    ensures historico.registros == old(historico.registros)
                                   + [HistoricoEntrada(id, consultorId, None, Solicitada, Criada, agora)]
  {
    c := new Cotacao(id, numero, consultorId, empresa, envio, agora);
    var _ := historico.RegistrarMudanca(id, consultorId, None, c.status, Criada, agora);
  }
}
