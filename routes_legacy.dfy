/** The legacy quote blueprint (src/routes/cotacao.py) apart from creation,
    which QuoteCreation models: the role-scoped listing with its conjunctive
    filters, the action dispatch of `finalizar`, `reatribuir`, and the
    statistics endpoint. The `cotacoes` table is a sequence of rows; the
    caller is a `User`. */
module RoutesLegacy {
  import opened Common
  import opened QuoteModel
  import opened Query
  import opened Http

  // ---------------------------------------------------------------- listing

  /** The query-string filters of `GET /cotacoes`. */
  datatype FiltrosLegado = FiltrosLegado(
    status: Option<string>,
    clienteNome: Option<string>,
    clienteCnpj: Option<string>,
    origemCidade: Option<string>,
    destinoCidade: Option<string>,
    dataInicio: DataArg,
    dataFim: DataArg,
    consultorId: Option<string>,
    operadorId: Option<string>,
    empresaTransporte: Option<string>)

  const SemFiltros: FiltrosLegado :=
    FiltrosLegado(None, None, None, None, None, SemData, SemData, None, None, None)

  /** The base query: a consultant's own quotes, every quote for the other roles. */
  predicate VisivelLegado(u: User, q: CotacaoRow)
    ensures u.role != Consultor ==> VisivelLegado(u, q)
    ensures q.consultorId == u.id ==> VisivelLegado(u, q)
    ensures VisivelLegado(u, q) && u.role == Consultor ==> q.consultorId == u.id
  {
    u.role == Consultor ==> q.consultorId == u.id
  }

  /** An integer column compared with the text of a query parameter: text of
      decimal digits matches its value, any other text matches no row. */
  predicate IgualId(texto: string, id: nat) {
    texto != "" && AllDigits(texto) && DecimalValue(texto) == id
  }

  /** `consultor_id` / `operador_id`: applied only for non-consultant callers;
      a NULL column never matches. */
  predicate PassaId(u: User, f: Option<string>, coluna: Option<nat>) {
    u.role != Consultor && Informado(f) ==> coluna.Some? && IgualId(f.value, coluna.value)
  }

  /** `cliente_cnpj`: the digits of the parameter as a substring of the stored CNPJ. */
  predicate PassaCnpj(f: Option<string>, q: CotacaoRow) {
    Informado(f) ==> Contains(q.envio.clienteCnpj, DigitsOnly(f.value))
  }

  /** The WHERE clause the handler builds, one conjunct per `if` of the source. */
  predicate SelecionadaLegado(u: User, f: FiltrosLegado, q: CotacaoRow) {
    && VisivelLegado(u, q)
    && PassaStatus(f.status, q)
    && PassaTexto(f.clienteNome, q.envio.clienteNome)
    && PassaCnpj(f.clienteCnpj, q)
    && PassaTexto(f.origemCidade, q.envio.origem.cidade)
    && PassaTexto(f.destinoCidade, q.envio.destino.cidade)
    && PassaDesde(f.dataInicio, q)
    && PassaAte(f.dataFim, q)
    && PassaId(u, f.consultorId, Some(q.consultorId))
    && PassaId(u, f.operadorId, q.operadorId)
    && PassaEmpresa(f.empresaTransporte, q)
  }

  /** `listar_cotacoes` before pagination: the selected rows, most recent first. */
  function ListarLegado(u: User, f: FiltrosLegado, tabela: seq<CotacaoRow>): (l: Listagem)
    ensures forall x :: x in l.itens <==> x in tabela && SelecionadaLegado(u, f, x)
    ensures u.role == Consultor ==> forall x :: x in l.itens ==> x.consultorId == u.id
    ensures Decrescente(l.itens) && l.total == |l.itens|
  {
    Listar(tabela, q => SelecionadaLegado(u, f, q))
  }

  /** The filters as the handler effectively applies them: empty parameters
      and unparseable status, mode and dates dropped, and the id filters
      dropped for a consultant. */
  function Normalizar(u: User, f: FiltrosLegado): (g: FiltrosLegado)
    ensures g.status.Some? ==> StatusFromValue(g.status.value).Some?
    ensures g.empresaTransporte.Some? ==> EmpresaFromValue(g.empresaTransporte.value).Some?
    ensures !g.dataInicio.DataInvalida? && !g.dataFim.DataInvalida?
    ensures u.role == Consultor ==> g.consultorId.None? && g.operadorId.None?
  {
    var texto := (p: Option<string>) => if Informado(p) then p else None;
    FiltrosLegado(
      if Informado(f.status) && StatusFromValue(f.status.value).Some? then f.status else None,
      texto(f.clienteNome),
      texto(f.clienteCnpj),
      texto(f.origemCidade),
      texto(f.destinoCidade),
      if f.dataInicio.Dia? then f.dataInicio else SemData,
      if f.dataFim.Dia? then f.dataFim else SemData,
      if u.role == Consultor then None else texto(f.consultorId),
      if u.role == Consultor then None else texto(f.operadorId),
      if Informado(f.empresaTransporte) && EmpresaFromValue(f.empresaTransporte.value).Some?
      then f.empresaTransporte else None)
  }

  /** Invalid or empty filters are ignored, not rejected, and a consultant's
      id filters have no effect: the listing equals the one of the normalized filters. */
  lemma FiltrosIgnorados(u: User, f: FiltrosLegado, tabela: seq<CotacaoRow>)
    ensures ListarLegado(u, f, tabela) == ListarLegado(u, Normalizar(u, f), tabela)
  {
    var g := Normalizar(u, f);
    forall q ensures SelecionadaLegado(u, f, q) == SelecionadaLegado(u, g, q) {
      assert PassaId(u, f.consultorId, Some(q.consultorId)) == PassaId(u, g.consultorId, Some(q.consultorId));
      assert PassaId(u, f.operadorId, q.operadorId) == PassaId(u, g.operadorId, q.operadorId);
    }
    FiltrarEquivalentes(tabela, q => SelecionadaLegado(u, f, q), q => SelecionadaLegado(u, g, q));
  }

  /** The CNPJ filter compares digits only: punctuation in the parameter
      changes nothing. */
  lemma FiltroCnpjSoDigitos(u: User, f: FiltrosLegado, s: string, tabela: seq<CotacaoRow>)
    requires DigitsOnly(s) != ""
    ensures ListarLegado(u, f.(clienteCnpj := Some(s)), tabela)
            == ListarLegado(u, f.(clienteCnpj := Some(DigitsOnly(s))), tabela)
  {
    var f1 := f.(clienteCnpj := Some(s));
    var f2 := f.(clienteCnpj := Some(DigitsOnly(s)));
    DigitsOnlyIdempotent(s);
    assert forall q :: PassaCnpj(f1.clienteCnpj, q) == PassaCnpj(f2.clienteCnpj, q);
    FiltrarEquivalentes(tabela, q => SelecionadaLegado(u, f1, q), q => SelecionadaLegado(u, f2, q));
  }

  /** A CNPJ parameter without any digit cleans to the empty pattern and
      keeps every row, as if it were absent. */
  lemma FiltroCnpjSemDigitos(u: User, f: FiltrosLegado, s: string, tabela: seq<CotacaoRow>)
    requires DigitsOnly(s) == ""
    ensures ListarLegado(u, f.(clienteCnpj := Some(s)), tabela) == ListarLegado(u, f.(clienteCnpj := None), tabela)
  {
    var f1 := f.(clienteCnpj := Some(s));
    var f2 := f.(clienteCnpj := None);
    forall q: CotacaoRow ensures PassaCnpj(f1.clienteCnpj, q) {
      assert IsPrefix("", q.envio.clienteCnpj);
    }
    FiltrarEquivalentes(tabela, q => SelecionadaLegado(u, f1, q), q => SelecionadaLegado(u, f2, q));
  }

  /** Without filters, operators, managers and administrators get the whole
      table, reordered. */
  lemma SemFiltrosTudo(u: User, tabela: seq<CotacaoRow>)
    requires u.role != Consultor
    ensures multiset(ListarLegado(u, SemFiltros, tabela).itens) == multiset(tabela)
    ensures ListarLegado(u, SemFiltros, tabela).total == |tabela|
  {
    FiltrarTudo(tabela, q => SelecionadaLegado(u, SemFiltros, q));
  }

  // ---------------------------------------------------------------- finalizar

  /** `finalizar_cotacao`: the lookup, then the model guard `pode_ser_finalizada_por`
      (403), then the action allowed for the caller's role (400 otherwise);
      the model's `ValueError` falls into the handler's generic 500. */
  function FinalizarRota(l: Leitura, u: User, linha: Option<CotacaoRow>, acao: Json, obs: Option<string>, agora: nat): (r: Efeito)
    requires LinhaValida(linha)
    ensures linha.None? ==> r == CotacaoAusente(l)
    ensures linha.Some? && !PodeSerFinalizadaPor(linha.value.status, linha.value.operadorId, u) ==>
      r == Recusa(403, GuardaRecusou)
    ensures r.passo.Some? ==> r.resposta == Resposta(200, Sucesso) && linha.Some?
                              && PodeSerFinalizadaPor(linha.value.status, linha.value.operadorId, u)
    ensures r.passo.Some? && u.role == Consultor ==>
      && linha.value.operadorId == Some(u.id) && linha.value.status == CotacaoEnviada
      && (acao == JText("aprovar") || acao == JText("recusar"))
      && r.passo.value.depois.status == (if acao == JText("aprovar") then AceitaConsultor else NegadaConsultor)
      && r.passo.value.registro.usuarioId == linha.value.consultorId
    ensures r.passo.Some? && u.role != Consultor ==>
      acao == JText("marcar_finalizada") && r.passo.value.depois.status == Finalizada
      && r.passo.value.registro.usuarioId == u.id
    ensures linha.Some? && PodeSerFinalizadaPor(linha.value.status, linha.value.operadorId, u)
            && (if u.role == Consultor then acao != JText("aprovar") && acao != JText("recusar")
                else acao != JText("marcar_finalizada")) ==>
      r == Recusa(400, AcaoInvalida)
  {
    if linha.None? then CotacaoAusente(l)
    else
      var q := linha.value;
      if !PodeSerFinalizadaPor(q.status, q.operadorId, u) then Recusa(403, GuardaRecusou)
      else if u.role == Consultor then
        if acao == JText("aprovar") then PeloModelo(Transicao(q, AceitarPorConsultor(obs), agora), 500)
        else if acao == JText("recusar") then PeloModelo(Transicao(q, NegarPorConsultor(obs), agora), 500)
        else Recusa(400, AcaoInvalida)
      else if acao == JText("marcar_finalizada") then
        PeloModelo(Transicao(q, Evento.MarcarFinalizada(u, obs), agora), 500)
      else Recusa(400, AcaoInvalida)
  }

  /** The owning consultant of a quote cannot finalize it through this route
      unless the consultant is also its assigned operator. */
  lemma DonoNaoBastaParaFinalizar(l: Leitura, u: User, q: CotacaoRow, acao: Json, obs: Option<string>, agora: nat)
    requires Invariante(q) && u.role == Consultor && q.consultorId == u.id && q.operadorId != Some(u.id)
    ensures FinalizarRota(l, u, Some(q), acao, obs, agora) == Recusa(403, GuardaRecusou)
  {
  }

  /** The handler of `POST /cotacoes/<id>/finalizar` over the entity. */
  method Finalizar(l: Leitura, u: User, q: Cotacao?, acao: Json, obs: Option<string>, historico: Historico, agora: nat)
    returns (resp: Resposta)
    requires q != null ==> q.Valid()
    modifies q, historico
    ensures q != null ==> q.Valid()
    ensures var ef := FinalizarRota(l, u, old(LinhaDe(q)), acao, obs, agora);
            resp == ef.resposta && Efetivou(ef.passo, q, historico)
  {
    if q == null {
      return CotacaoAusente(l).resposta;
    }
    if !PodeSerFinalizadaPor(q.status, q.operadorId, u) {
      return Resposta(403, GuardaRecusou);
    }
    var r: Resultado;
    if u.role == Consultor {
      if acao == JText("aprovar") {
        r := q.AceitarPorConsultor(obs, historico, agora);
      } else if acao == JText("recusar") {
        r := q.NegarPorConsultor(obs, historico, agora);
      } else {
        return Resposta(400, AcaoInvalida);
      }
    } else {
      if acao == JText("marcar_finalizada") {
        r := q.MarcarFinalizada(u, obs, historico, agora);
      } else {
        return Resposta(400, AcaoInvalida);
      }
    }
    resp := RespostaDe(r, 500);
  }

  // ---------------------------------------------------------------- reatribuir

  /** `Usuario.query.get(v)` over the users table. */
  function BuscarUsuario(v: Json, usuarios: map<nat, User>): (r: Option<User>)
    ensures r.Some? <==> IdDe(v).Some? && IdDe(v).value in usuarios
    ensures r.Some? ==> r == Some(usuarios[IdDe(v).value])
  {
    match IdDe(v)
    case None => None
    case Some(i) => if i in usuarios then Some(usuarios[i]) else None
  }

  /** `reatribuir_cotacao`: the lookup, then the role guard (403), then a truthy
      `operador_id` naming an existing member of the operating team (400). */
  function ReatribuirRota(l: Leitura, u: User, linha: Option<CotacaoRow>, operadorId: Json, usuarios: map<nat, User>,
                          agora: nat): (r: Efeito)
    requires LinhaValida(linha)
    ensures linha.None? ==> r == CotacaoAusente(l)
    ensures linha.Some? && !PodeSerReatribuidaPor(u) ==> r == Recusa(403, PerfilSemPermissao)
    ensures linha.Some? && PodeSerReatribuidaPor(u) && !Truthy(operadorId) ==> r == Recusa(400, OperadorObrigatorio)
    ensures linha.Some? && PodeSerReatribuidaPor(u) && Truthy(operadorId)
            && (BuscarUsuario(operadorId, usuarios).None? || !EquipeOperacional(BuscarUsuario(operadorId, usuarios).value.role)) ==>
      r == Recusa(400, OperadorInvalido)
    ensures r.passo.Some? ==>
      && linha.Some? && Gestor(u.role) && r.resposta == Resposta(200, Sucesso)
      && BuscarUsuario(operadorId, usuarios).Some?
      && EquipeOperacional(BuscarUsuario(operadorId, usuarios).value.role)
      && r.passo.value.depois == linha.value.(operadorId := Some(BuscarUsuario(operadorId, usuarios).value.id))
      && r.passo.value.registro.statusAnterior == Some(r.passo.value.registro.statusNovo)
  {
    if linha.None? then CotacaoAusente(l)
    else if !PodeSerReatribuidaPor(u) then Recusa(403, PerfilSemPermissao)
    else if !Truthy(operadorId) then Recusa(400, OperadorObrigatorio)
    else
      match BuscarUsuario(operadorId, usuarios)
      case None => Recusa(400, OperadorInvalido)
      case Some(op) =>
        if !EquipeOperacional(op.role) then Recusa(400, OperadorInvalido)
        else PeloModelo(Transicao(linha.value, Evento.Reatribuir(u, op), agora), 500)
  }

  /** A reassignment that passes the route's checks always succeeds, in any
      status, and stores the requested user as the operator. */
  lemma ReatribuicaoValidaSempreAplica(l: Leitura, u: User, q: CotacaoRow, i: nat, usuarios: map<nat, User>, agora: nat)
    requires Invariante(q) && Gestor(u.role)
    requires i > 0 && i in usuarios && usuarios[i].id == i && EquipeOperacional(usuarios[i].role)
    ensures var r := ReatribuirRota(l, u, Some(q), JInt(i), usuarios, agora);
            r.passo.Some? && r.passo.value.depois.operadorId == Some(i) && r.passo.value.depois.status == q.status
  {
  }

  /** The handler of `POST /cotacoes/<id>/reatribuir` over the entity. */
  method Reatribuir(l: Leitura, u: User, q: Cotacao?, operadorId: Json, usuarios: map<nat, User>, historico: Historico, agora: nat)
    returns (resp: Resposta)
    requires q != null ==> q.Valid()
    modifies q, historico
    ensures q != null ==> q.Valid()
    ensures var ef := ReatribuirRota(l, u, old(LinhaDe(q)), operadorId, usuarios, agora);
            resp == ef.resposta && Efetivou(ef.passo, q, historico)
  {
    if q == null {
      return CotacaoAusente(l).resposta;
    }
    if !PodeSerReatribuidaPor(u) {
      return Resposta(403, PerfilSemPermissao);
    }
    if !Truthy(operadorId) {
      return Resposta(400, OperadorObrigatorio);
    }
    var alvo := BuscarUsuario(operadorId, usuarios);
    if alvo.None? || !EquipeOperacional(alvo.value.role) {
      return Resposta(400, OperadorInvalido);
    }
    var r := q.Reatribuir(u, alvo.value, historico, agora);
    resp := RespostaDe(r, 500);
  }

  // ---------------------------------------------------------------- estatisticas

  /** `base_query.filter(Cotacao.status == s).count()`. */
  function ContarStatus(rows: seq<CotacaoRow>, s: Status): (n: nat)
    ensures n <= |rows|
    decreases |rows|
  {
    if rows == [] then 0 else (if rows[0].status == s then 1 else 0) + ContarStatus(rows[1..], s)
  }

  /** `base_query.filter(Cotacao.empresa_transporte == e).count()`. */
  function ContarEmpresa(rows: seq<CotacaoRow>, e: Empresa): (n: nat)
    ensures n <= |rows|
    decreases |rows|
  {
    if rows == [] then 0 else (if rows[0].empresaTransporte == e then 1 else 0) + ContarEmpresa(rows[1..], e)
  }

  /** `Cotacao.query.filter(Cotacao.operador_id == id).count()`. */
  function ContarOperador(rows: seq<CotacaoRow>, id: nat): (n: nat)
    ensures n <= |rows|
    decreases |rows|
  {
    if rows == [] then 0 else (if rows[0].operadorId == Some(id) then 1 else 0) + ContarOperador(rows[1..], id)
  }

  /** Every row has exactly one status: the six counts add up to the number of rows. */
  lemma {:induction false} StatusSomamTotal(rows: seq<CotacaoRow>)
    ensures ContarStatus(rows, Solicitada) + ContarStatus(rows, AceitaOperador) + ContarStatus(rows, CotacaoEnviada)
            + ContarStatus(rows, AceitaConsultor) + ContarStatus(rows, NegadaConsultor) + ContarStatus(rows, Finalizada)
            == |rows|
    decreases |rows|
  {
    if rows != [] {
      StatusSomamTotal(rows[1..]);
    }
  }

  /** Every row has exactly one mode: the three counts add up to the number of rows. */
  lemma {:induction false} EmpresasSomamTotal(rows: seq<CotacaoRow>)
    ensures ContarEmpresa(rows, BrcargoRodoviario) + ContarEmpresa(rows, BrcargoMaritimo) + ContarEmpresa(rows, FreteAereo)
            == |rows|
    decreases |rows|
  {
    if rows != [] {
      EmpresasSomamTotal(rows[1..]);
    }
  }

  /** An operator's count is positive exactly when some row is assigned to the operator. */
  lemma {:induction false} ContarOperadorPositivo(rows: seq<CotacaoRow>, id: nat)
    ensures ContarOperador(rows, id) > 0 <==> exists i :: 0 <= i < |rows| && rows[i].operadorId == Some(id)
    decreases |rows|
  {
    if rows != [] {
      ContarOperadorPositivo(rows[1..], id);
      if ContarOperador(rows[1..], id) > 0 {
        var i :| 0 <= i < |rows[1..]| && rows[1..][i].operadorId == Some(id);
        assert rows[i + 1].operadorId == Some(id);
      }
    }
  }

  /** `stats_operadores` after the loop over `us`: the name of each member
      of the operating team with at least one assigned quote, mapped to that
      count; a later user with the same name overwrites an earlier one. */
  function PorOperador(tabela: seq<CotacaoRow>, us: seq<User>): (m: map<string, nat>)
    ensures forall k :: k in m ==> m[k] > 0
    decreases |us|
  {
    if us == [] then map[]
    else
      var m := PorOperador(tabela, us[..|us| - 1]);
      var op := us[|us| - 1];
      var n := ContarOperador(tabela, op.id);
      if EquipeOperacional(op.role) && n > 0 then m[op.nome := n] else m
  }

  /** Every entry of `por_operador` is the count of a team member with that
      name, and every team member with a positive count has an entry. */
  lemma {:induction false} PorOperadorConteudo(tabela: seq<CotacaoRow>, us: seq<User>)
    ensures forall k :: k in PorOperador(tabela, us) ==>
      exists j :: 0 <= j < |us| && us[j].nome == k && EquipeOperacional(us[j].role)
                  && ContarOperador(tabela, us[j].id) == PorOperador(tabela, us)[k]
    ensures forall j :: 0 <= j < |us| && EquipeOperacional(us[j].role) && ContarOperador(tabela, us[j].id) > 0 ==>
      us[j].nome in PorOperador(tabela, us)
    decreases |us|
  {
    if us != [] {
      var ini := us[..|us| - 1];
      PorOperadorConteudo(tabela, ini);
      var m := PorOperador(tabela, us);
      forall k | k in m
        ensures exists j :: 0 <= j < |us| && us[j].nome == k && EquipeOperacional(us[j].role)
                            && ContarOperador(tabela, us[j].id) == m[k]
      {
        var ultimo := us[|us| - 1];
        var mi := PorOperador(tabela, ini);
        if EquipeOperacional(ultimo.role) && ContarOperador(tabela, ultimo.id) > 0 && k == ultimo.nome {
          assert us[|us| - 1].nome == k;
        } else {
          assert k in mi && m[k] == mi[k];
          var j :| 0 <= j < |ini| && ini[j].nome == k && EquipeOperacional(ini[j].role)
                   && ContarOperador(tabela, ini[j].id) == mi[k];
          assert us[j] == ini[j];
        }
      }
      forall j | 0 <= j < |us| && EquipeOperacional(us[j].role) && ContarOperador(tabela, us[j].id) > 0
        ensures us[j].nome in m
      {
        if j < |us| - 1 {
          assert ini[j] == us[j];
        }
      }
    }
  }

  /** The response body's `estatisticas`. */
  datatype Estatisticas = Estatisticas(
    total: nat,
    porStatus: map<string, nat>,
    porEmpresa: map<string, nat>,
    porOperador: map<string, nat>)

  /** The scope of the statistics: the listing's base query. */
  function EscopoLegado(u: User, tabela: seq<CotacaoRow>): (r: seq<CotacaoRow>)
    ensures forall x :: x in r <==> x in tabela && VisivelLegado(u, x)
  {
    Filtrar(tabela, q => VisivelLegado(u, q))
  }

  /** The statuses of the enumeration have distinct values. */
  lemma ValoresDeStatusDistintos(i: nat, j: nat)
    requires i < j < |TodosStatus|
    ensures StatusValue(TodosStatus[i]) != StatusValue(TodosStatus[j])
  {
  }

  /** `for status in StatusCotacao: stats[status.value] = count`: one key per
      status, none other, each mapped to its count. */
  method ContagemPorStatus(rows: seq<CotacaoRow>) returns (m: map<string, nat>)
    ensures forall k :: k in m <==> StatusFromValue(k).Some?
    ensures forall s :: StatusValue(s) in m && m[StatusValue(s)] == ContarStatus(rows, s)
  {
    m := map[];
    for i := 0 to |TodosStatus|
      invariant forall k :: k in m ==> StatusFromValue(k).Some?
      invariant forall j :: 0 <= j < i ==>
        StatusValue(TodosStatus[j]) in m && m[StatusValue(TodosStatus[j])] == ContarStatus(rows, TodosStatus[j])
    {
      ghost var antes := m;
      var s := TodosStatus[i];
      assert StatusFromValue(StatusValue(s)) == Some(s);
      m := m[StatusValue(s) := ContarStatus(rows, s)];
      forall j | 0 <= j < i ensures m[StatusValue(TodosStatus[j])] == antes[StatusValue(TodosStatus[j])] {
        ValoresDeStatusDistintos(j, i);
      }
    }
    forall s: Status ensures StatusValue(s) in m && m[StatusValue(s)] == ContarStatus(rows, s) {
      TodosStatusCompleto(s);
      var j :| 0 <= j < |TodosStatus| && TodosStatus[j] == s;
    }
    forall k | StatusFromValue(k).Some? ensures k in m {
      assert StatusValue(StatusFromValue(k).value) == k;
    }
  }

  /** `for empresa in EmpresaCotacao: stats[empresa.value] = count`. */
  method ContagemPorEmpresa(rows: seq<CotacaoRow>) returns (m: map<string, nat>)
    ensures forall k :: k in m <==> EmpresaFromValue(k).Some?
    ensures forall x :: EmpresaValue(x) in m && m[EmpresaValue(x)] == ContarEmpresa(rows, x)
  {
    m := map[];
    for i := 0 to |TodasEmpresas|
      invariant forall k :: k in m <==> exists j :: 0 <= j < i && EmpresaValue(TodasEmpresas[j]) == k
      invariant forall j :: 0 <= j < i ==> m[EmpresaValue(TodasEmpresas[j])] == ContarEmpresa(rows, TodasEmpresas[j])
    {
      m := m[EmpresaValue(TodasEmpresas[i]) := ContarEmpresa(rows, TodasEmpresas[i])];
    }
    forall x: Empresa ensures EmpresaValue(x) in m && m[EmpresaValue(x)] == ContarEmpresa(rows, x) {
      assert x == TodasEmpresas[0] || x == TodasEmpresas[1] || x == TodasEmpresas[2];
    }
    forall k ensures k in m <==> EmpresaFromValue(k).Some? {
      if EmpresaFromValue(k).Some? {
        assert EmpresaValue(EmpresaFromValue(k).value) == k;
      }
    }
  }

  /** The loop over the team members filling `stats_operadores`. */
  method ContagemPorOperador(tabela: seq<CotacaoRow>, usuarios: seq<User>) returns (m: map<string, nat>)
    ensures m == PorOperador(tabela, usuarios)
  {
    m := map[];
    for i := 0 to |usuarios|
      invariant m == PorOperador(tabela, usuarios[..i])
    {
      assert usuarios[..i + 1][..i] == usuarios[..i];
      var op := usuarios[i];
      if EquipeOperacional(op.role) {
        var n := ContarOperador(tabela, op.id);
        if n > 0 {
          m := m[op.nome := n];
        }
      }
    }
    assert usuarios[..|usuarios|] == usuarios;
  }

  /** `obter_estatisticas`: zero-filled counts per status and per mode over
      the caller's scope, and, for non-consultants, per-operator counts over
      the whole table. `usuarios` is the users table in query order. */
  method ObterEstatisticas(u: User, tabela: seq<CotacaoRow>, usuarios: seq<User>) returns (e: Estatisticas)
    ensures e.total == |EscopoLegado(u, tabela)|
    ensures forall k :: k in e.porStatus <==> StatusFromValue(k).Some?
    ensures forall s :: StatusValue(s) in e.porStatus && e.porStatus[StatusValue(s)] == ContarStatus(EscopoLegado(u, tabela), s)
    ensures forall k :: k in e.porEmpresa <==> EmpresaFromValue(k).Some?
    ensures forall x :: EmpresaValue(x) in e.porEmpresa && e.porEmpresa[EmpresaValue(x)] == ContarEmpresa(EscopoLegado(u, tabela), x)
    ensures e.porStatus[StatusValue(Solicitada)] + e.porStatus[StatusValue(AceitaOperador)]
            + e.porStatus[StatusValue(CotacaoEnviada)] + e.porStatus[StatusValue(AceitaConsultor)]
            + e.porStatus[StatusValue(NegadaConsultor)] + e.porStatus[StatusValue(Finalizada)] == e.total
    ensures e.porEmpresa[EmpresaValue(BrcargoRodoviario)] + e.porEmpresa[EmpresaValue(BrcargoMaritimo)]
            + e.porEmpresa[EmpresaValue(FreteAereo)] == e.total
    ensures u.role == Consultor ==> e.porOperador == map[]
    ensures u.role != Consultor ==> e.porOperador == PorOperador(tabela, usuarios)
  {
    var escopo := EscopoLegado(u, tabela);
    var porStatus := ContagemPorStatus(escopo);
    var porEmpresa := ContagemPorEmpresa(escopo);
    var porOperador: map<string, nat> := map[];
    if u.role != Consultor {
      porOperador := ContagemPorOperador(tabela, usuarios);
    }
    StatusSomamTotal(escopo);
    EmpresasSomamTotal(escopo);
    e := Estatisticas(|escopo|, porStatus, porEmpresa, porOperador);
  }
}
