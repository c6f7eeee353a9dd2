/** What the Flask handlers answer: an HTTP status code with the reason
    carried in the JSON body's `message`, plus, for handlers that call a
    model transition, the step that transition applied. */
module Http {
  import opened Common
  import opened QuoteModel

  /** The reason of a response, one constructor per distinct message. */
  datatype Motivo =
    | Sucesso
    | NaoEncontrada
    | PerfilSemPermissao
    | NaoResponsavel
    | GuardaRecusou
    | AcaoInvalida
    | CampoObrigatorio(campo: string)
    | CampoMaritimoObrigatorio(campo: string)
    | CnpjInvalido
    | CepOrigemInvalido
    | CepDestinoInvalido
    | PesoInvalido
    | GrossWeightInvalido
    | EmpresaTransporteInvalida(valor: Json)
    | NetMaiorQueGross
    | ValoresMaritimosInvalidos
    | OperadorObrigatorio
    | OperadorInvalido
    | EmpresaPrestadoraObrigatoria
    | EmpresaPrestadoraNaoEncontrada
    | StatusNaoPermiteNegar
    | ErroDoModelo(erro: ErroModelo)
    | ErroInterno

  datatype Resposta = Resposta(codigo: nat, motivo: Motivo)

  /** A handler's whole effect: its response and the model step it applied. */
  datatype Efeito = Efeito(resposta: Resposta, passo: Option<Passo>)

  function Recusa(codigo: nat, m: Motivo): Efeito {
    Efeito(Resposta(codigo, m), None)
  }

  /** A handler that calls a model transition: 200 with the step on success,
      the handler's error code for the transition's `ValueError`. */
  function PeloModelo(t: Result<Passo, ErroModelo>, codigoErro: nat): Efeito {
    match t
    case Ok(p) => Efeito(Resposta(200, Sucesso), Some(p))
    case Err(x) => Recusa(codigoErro, ErroDoModelo(x))
  }

  /** The response for the outcome a model method returned. */
  function RespostaDe(r: Resultado, codigoErro: nat): Resposta {
    match r
    case Feito => Resposta(200, Sucesso)
    case Falhou(x) => Resposta(codigoErro, ErroDoModelo(x))
  }

  /** `get_or_404`: the row of the looked-up quote, None when it is absent. */
  function LinhaDe(q: Cotacao?): Option<CotacaoRow>
    reads q
  {
    if q == null then None else Some(q.Row())
  }

  predicate LinhaValida(l: Option<CotacaoRow>) {
    l.Some? ==> Invariante(l.value)
  }

  /** The quote and the ledger changed exactly as `passo` says: not at all
      without a step, to its new row plus one entry with it. */
  twostate predicate Efetivou(passo: Option<Passo>, q: Cotacao?, h: Historico)
    reads q, h
  {
    match passo
    case None => (q != null ==> q.Row() == old(q.Row())) && h.registros == old(h.registros)
    case Some(p) => q != null && q.Row() == p.depois && h.registros == old(h.registros) + [p.registro]
  }

  /** The id a handler passes to `Model.query.get(v)`: an integer, or the
      decimal text of one; None for anything that matches no primary key. */
  function IdDe(v: Json): (r: Option<nat>)
    ensures v.JInt? && v.i >= 0 ==> r == Some(v.i as nat)
    ensures r.Some? ==> v.JInt? || v.JText?
  {
    match v
    case JInt(i) => if i >= 0 then Some(i as nat) else None
    case JText(s) => if s != "" && AllDigits(s) then Some(DecimalValue(s)) else None
    case _ => None
  }

  /** Which reading of the handlers a model call follows: the source as
      written, or as its authors evidently intended it. The two differ only
      in how a quote id with no row is answered. */
  datatype Leitura = ComoEscrito | Corrigido

  /** A quote id with no row. As written, `get_or_404` runs inside the
      handler's `try`, and werkzeug's `NotFound` is an `Exception` (not a
      `ValueError`), so the generic clause answers 500. As intended,
      `get_or_404` answers 404. Either way nothing is applied. */
  function CotacaoAusente(l: Leitura): (r: Efeito)
    ensures r.passo.None?
    ensures l.ComoEscrito? ==> r.resposta == Resposta(500, ErroInterno)
    ensures l.Corrigido? ==> r.resposta == Resposta(404, NaoEncontrada)
  {
    match l
    case ComoEscrito => Recusa(500, ErroInterno)
    case Corrigido => Recusa(404, NaoEncontrada)
  }
}
