/** `POST /cotacoes`: request validation and row construction. The legacy
    handler (src/routes/cotacao.py) and the unified one
    (src/routes/cotacao_v133.py) run the same checks in the same order:

    role, then the required fields of the lower-cased transport mode, then
    the CNPJ, the CEPs (only when the lower-cased mode is road), the weight,
    the transport mode parsed from the RAW request value, the maritime
    checks, and finally the origin fields of the new row. */
module QuoteCreation {
  import opened Common
  import opened Validators
  import opened QuoteModel
  import opened QuoteNumbering
  import opened Http

  /** The JSON body of the request. */
  type Dados = map<string, Json>

  const CamposBasicos: seq<string> := ["cliente_nome", "cliente_cnpj", "numero_cliente"]
  const CamposOrigemEndereco: seq<string> := ["origem_cep", "origem_endereco", "origem_cidade", "origem_estado"]
  const CamposDestino: seq<string> := ["destino_cep", "destino_endereco", "destino_cidade", "destino_estado"]
  const CamposCarga: seq<string> := ["carga_descricao", "carga_peso_kg", "carga_valor_mercadoria", "carga_cubagem"]
  const CamposMaritimos: seq<string> :=
    ["porto_origem", "porto_destino", "net_weight", "gross_weight", "cubagem", "incoterm",
     "tipo_carga_maritima", "carga_valor_mercadoria"]
  const CamposAereos: seq<string> := ["aeroporto_origem", "aeroporto_destino", "tipo_servico_aereo"]
  /** The list of the second, maritime-only required check. */
  const CamposMaritimosRepetidos: seq<string> :=
    ["net_weight", "gross_weight", "cubagem", "incoterm", "tipo_carga_maritima", "porto_origem", "porto_destino"]

  const PortoNaoEspecificado: string := "Porto não especificado"

  /** The role check of `criar_cotacao`: consultants, administrators and
      managers; that is, everyone but an operator. */
  predicate PodeCriar(r: Role): (b: bool)
    ensures b <==> r != Operador
  {
    r == Consultor || r == Administrador || r == Gerente
  }

  /** `data.get('empresa_transporte', '').lower()`; None where a non-text
      value makes `.lower()` raise. */
  function ModoMinusculo(data: Dados): (r: Option<string>)
    ensures "empresa_transporte" !in data ==> r == Some("")
    ensures r.None? <==> "empresa_transporte" in data && !data["empresa_transporte"].JText?
    ensures r.Some? ==> forall i :: 0 <= i < |r.value| ==> !('A' <= r.value[i] <= 'Z')
    ensures r.Some? && "empresa_transporte" in data ==> |r.value| == |data["empresa_transporte"].s|
  {
    if "empresa_transporte" !in data then Some("")
    else
      match data["empresa_transporte"]
      case JText(s) => Some(Lower(s))
      case _ => None
  }

  /** `data.get('tipo_origem', 'endereco')`. */
  function TipoOrigem(data: Dados): (r: Json)
    ensures "tipo_origem" in data ==> r == data["tipo_origem"]
    ensures "tipo_origem" !in data ==> r == JText("endereco")
  {
    GetOr(data, "tipo_origem", JText("endereco"))
  }

  /** The required fields for a lower-cased mode; any other mode gets the road list. */
  function CamposObrigatorios(modo: string, tipoOrigem: Json): (cs: seq<string>)
    ensures |cs| >= 3 && cs[..3] == CamposBasicos
    ensures modo != "brcargo_maritimo" ==> "carga_peso_kg" in cs
    ensures modo == "brcargo_maritimo" ==> forall c :: c in CamposMaritimosRepetidos ==> c in cs
  {
    if modo == "brcargo_rodoviario" then
      if tipoOrigem == JText("porto") then CamposBasicos + ["origem_porto"] + CamposDestino + CamposCarga
      else CamposBasicos + CamposOrigemEndereco + CamposDestino + CamposCarga
    else if modo == "brcargo_maritimo" then CamposBasicos + CamposMaritimos
    else if modo == "frete_aereo" then CamposBasicos + CamposAereos + CamposCarga
    else CamposBasicos + CamposOrigemEndereco + CamposDestino + CamposCarga
  }

  /** The position of the first field of `cs` that is absent or falsy (`if not data.get(campo)`). */
  function PrimeiroAusente(data: Dados, cs: seq<string>): (r: Option<nat>)
    ensures r.None? ==> forall c :: c in cs ==> Truthy(Get(data, c))
    ensures r.Some? ==> r.value < |cs| && !Truthy(Get(data, cs[r.value]))
                        && forall j :: 0 <= j < r.value ==> Truthy(Get(data, cs[j]))
    decreases |cs|
  {
    if cs == [] then None
    else if !Truthy(Get(data, cs[0])) then Some(0)
    else
      match PrimeiroAusente(data, cs[1..])
      case None => None
      case Some(i) => Some(i + 1)
  }

  /** The first falsy field is determined by the fields before it. */
  lemma {:induction false} PrimeiroAusenteUnico(data: Dados, cs: seq<string>, i: nat)
    requires i <= |cs| && forall j :: 0 <= j < i ==> Truthy(Get(data, cs[j]))
    ensures i < |cs| && !Truthy(Get(data, cs[i])) ==> PrimeiroAusente(data, cs) == Some(i)
    ensures i == |cs| ==> PrimeiroAusente(data, cs) == None
    decreases i
  {
    if i > 0 {
      PrimeiroAusenteUnico(data, cs[1..], i - 1);
    }
  }

  /** The loop `for campo in campos_obrigatorios: if not data.get(campo): return 400`. */
  method PrimeiroCampoAusente(data: Dados, cs: seq<string>) returns (r: Option<nat>)
    ensures r == PrimeiroAusente(data, cs)
  {
    var i := 0;
    while i < |cs|
      invariant 0 <= i <= |cs|
      invariant forall j :: 0 <= j < i ==> Truthy(Get(data, cs[j]))
    {
      if !Truthy(Get(data, cs[i])) {
        PrimeiroAusenteUnico(data, cs, i);
        return Some(i);
      }
      i := i + 1;
    }
    PrimeiroAusenteUnico(data, cs, i);
    r := None;
  }

  // ---------------------------------------------------------------- float()

  /** Position of the first '.' (or the length). */
  function PosicaoDoPonto(s: string): (k: nat)
    ensures k <= |s| && (k < |s| ==> s[k] == '.')
    ensures forall i :: 0 <= i < k ==> s[i] != '.'
  {
    if s == [] || s[0] == '.' then 0 else 1 + PosicaoDoPonto(s[1..])
  }

  /** `float(s)` on decimal text: an optional sign, digits, an optional
      fraction, at least one digit. None on text outside this decimal subset. */
  function ParseDecimal(s: string): (r: Option<real>)
    ensures s == "" || s == "-" || s == "+" || s == "." ==> r.None?
    ensures s != "" && AllDigits(s) ==> r == Some(DecimalValue(s) as real)
    ensures |s| > 1 && s[0] == '-' && AllDigits(s[1..]) ==> r == Some(-(DecimalValue(s[1..]) as real))
  {
    var negativo := |s| > 0 && s[0] == '-';
    var corpo := if |s| > 0 && (s[0] == '-' || s[0] == '+') then s[1..] else s;
    var k := PosicaoDoPonto(corpo);
    assert k < |corpo| ==> !IsDigit(corpo[k]);
    assert AllDigits(corpo) ==> k == |corpo| && corpo[..k] == corpo;
    var inteira := corpo[..k];
    var fracao := if k < |corpo| then corpo[k + 1..] else "";
    if |inteira| + |fracao| == 0 || !AllDigits(inteira) || !AllDigits(fracao) then None
    else
      var v := DecimalValue(inteira) as real + DecimalValue(fracao) as real / Pow10(|fracao|) as real;
      Some(if negativo then -v else v)
  }

  /** A rendered natural reads back as that number. */
  lemma ParseDecimalDeNatural(n: nat)
    ensures ParseDecimal(NatToDecimal(n)) == Some(n as real)
  {
    var s := NatToDecimal(n);
    assert !IsDigit('-') && !IsDigit('+') && !IsDigit('.');
    assert PosicaoDoPonto(s) == |s|;
    assert s[..|s|] == s;
    DecimalOfNatToDecimal(n);
  }

  /** `float(v)` over the JSON scalars; None where it raises ValueError or TypeError. */
  function PyFloat(v: Json): (r: Option<real>)
    ensures r.None? <==> v.JNull? || (v.JText? && ParseDecimal(v.s).None?)
    ensures v.JInt? ==> r == Some(v.i as real)
    ensures v.JBool? ==> r == Some(if v.b then 1.0 else 0.0)
  {
    match v
    case JNull => None
    case JBool(b) => Some(if b then 1.0 else 0.0)
    case JInt(i) => Some(i as real)
    case JText(s) => ParseDecimal(s)
  }

  // ---------------------------------------------------------------- checks

  /** `validar_cnpj(v)`; None where a non-text value makes `re.sub` raise. */
  function CnpjValidoDe(v: Json): Option<bool> {
    match v
    case JText(s) => Some(CnpjValido(s))
    case _ => None
  }

  /** `validar_cep(v)`; None where a non-text value makes `re.sub` raise. */
  function CepValidoDe(v: Json): Option<bool> {
    match v
    case JText(s) => Some(ValidarCep(s))
    case _ => None
  }

  /** `re.sub(r'[^0-9]', '', v)`; None for a non-text value. */
  function DigitosDe(v: Json): Option<string> {
    match v
    case JText(s) => Some(DigitsOnly(s))
    case _ => None
  }

  /** The CEP checks, made only when the lower-cased mode is road: the origin
      CEP when the origin type is exactly 'endereco', the destination CEP always. */
  function ErroDeCep(modo: string, data: Dados): (r: Option<Resposta>)
    ensures r.None? && modo == "brcargo_rodoviario" ==>
      && GetOr(data, "destino_cep", JText("")).JText?
      && ValidarCep(GetOr(data, "destino_cep", JText("")).s)
      && (TipoOrigem(data) == JText("endereco") ==>
            GetOr(data, "origem_cep", JText("")).JText? && ValidarCep(GetOr(data, "origem_cep", JText("")).s))
    ensures modo != "brcargo_rodoviario" ==> r.None?
  {
    if modo != "brcargo_rodoviario" then None
    else
      var origem := if TipoOrigem(data) == JText("endereco")
                    then CepValidoDe(GetOr(data, "origem_cep", JText("")))
                    else Some(true);
      match origem
      case None => Some(Resposta(500, ErroInterno))
      case Some(ok) =>
        if !ok then Some(Resposta(400, CepOrigemInvalido))
        else
          match CepValidoDe(GetOr(data, "destino_cep", JText("")))
          case None => Some(Resposta(500, ErroInterno))
          case Some(okDestino) =>
            if !okDestino then Some(Resposta(400, CepDestinoInvalido)) else None
  }

  /** The weight: `carga_peso_kg` outside maritime, `gross_weight` (default 0)
      for maritime; it must parse and be positive. */
  function PesoDaCarga(modo: string, data: Dados): (r: Result<real, Resposta>)
    ensures r.Ok? ==> r.value > 0.0
    ensures r.Ok? && modo == "brcargo_maritimo" ==> PyFloat(GetOr(data, "gross_weight", JInt(0))) == Some(r.value)
  {
    if modo != "brcargo_maritimo" then
      if "carga_peso_kg" !in data then Err(Resposta(500, ErroInterno))
      else
        match PyFloat(data["carga_peso_kg"])
        case None => Err(Resposta(400, PesoInvalido))
        case Some(p) => if p <= 0.0 then Err(Resposta(400, PesoInvalido)) else Ok(p)
    else
      match PyFloat(GetOr(data, "gross_weight", JInt(0)))
      case None => Err(Resposta(400, GrossWeightInvalido))
      case Some(p) => if p <= 0.0 then Err(Resposta(400, GrossWeightInvalido)) else Ok(p)
  }

  /** `EmpresaCotacao(data.get('empresa_transporte', 'brcargo_rodoviario'))`, on the raw value. */
  function EmpresaDaRequisicao(data: Dados): (r: Option<Empresa>)
    ensures r.Some? && "empresa_transporte" in data ==> data["empresa_transporte"] == JText(EmpresaValue(r.value))
    ensures "empresa_transporte" !in data ==> r == Some(BrcargoRodoviario)
  {
    match GetOr(data, "empresa_transporte", JText("brcargo_rodoviario"))
    case JText(s) => EmpresaFromValue(s)
    case _ => None
  }

  /** The maritime checks: the second required-field list, then net weight,
      gross weight and cubage parsed and positive, and net not above gross. */
  function ErroMaritimo(data: Dados): (r: Option<Resposta>)
    ensures r.Some? && r.value.motivo.CampoMaritimoObrigatorio? ==> PrimeiroAusente(data, CamposMaritimosRepetidos).Some?
    ensures r.None? ==>
      && PyFloat(Get(data, "net_weight")).Some? && PyFloat(Get(data, "gross_weight")).Some?
      && PyFloat(Get(data, "cubagem")).Some?
      && 0.0 < PyFloat(Get(data, "net_weight")).value <= PyFloat(Get(data, "gross_weight")).value
      && PyFloat(Get(data, "cubagem")).value > 0.0
  {
    match PrimeiroAusente(data, CamposMaritimosRepetidos)
    case Some(i) => Some(Resposta(400, CampoMaritimoObrigatorio(CamposMaritimosRepetidos[i])))
    case None =>
      var net := PyFloat(Get(data, "net_weight"));
      var gross := PyFloat(Get(data, "gross_weight"));
      var cub := PyFloat(Get(data, "cubagem"));
      if net.None? || gross.None? || cub.None? then Some(Resposta(400, ValoresMaritimosInvalidos))
      else if net.value <= 0.0 || gross.value <= 0.0 || cub.value <= 0.0 then Some(Resposta(400, ValoresMaritimosInvalidos))
      else if net.value > gross.value then Some(Resposta(400, NetMaiorQueGross))
      else None
  }

  // ---------------------------------------------------------------- the new row

  /** A port origin: placeholder CEP, "Porto: <name>" as the address, the name
      as the city, and the state SP. */
  function OrigemPorto(nome: Json): (r: Endereco)
    ensures ValidarCep(r.cep) && r.estado == "SP"
    ensures r.cidade == AsText(nome) && r.endereco == "Porto: " + AsText(nome)
  {
    Endereco("00000000", "Porto: " + AsText(nome), AsText(nome), "SP")
  }

  /** The origin columns: from the port for road-with-port-origin and for
      maritime, from the address fields otherwise. None where `re.sub` raises
      on a non-text CEP. */
  function Origem(emp: Empresa, data: Dados): (r: Option<Endereco>)
    ensures r.Some? && emp == BrcargoMaritimo ==> r.value.cep == "00000000" && r.value.estado == "SP"
    ensures r.Some? && emp != BrcargoMaritimo && TipoOrigem(data) != JText("porto") ==>
      GetOr(data, "origem_cep", JText("")).JText?
      && r.value.cep == DigitsOnly(GetOr(data, "origem_cep", JText("")).s)
  {
    if emp == BrcargoRodoviario && TipoOrigem(data) == JText("porto") then
      Some(OrigemPorto(GetOr(data, "origem_porto", JText(PortoNaoEspecificado))))
    else if emp == BrcargoMaritimo then
      Some(OrigemPorto(GetOr(data, "porto_origem", JText(PortoNaoEspecificado))))
    else
      match DigitosDe(GetOr(data, "origem_cep", JText("")))
      case None => None
      case Some(cep) =>
        Some(Endereco(cep, AsText(GetOr(data, "origem_endereco", JText(""))),
                      AsText(GetOr(data, "origem_cidade", JText(""))),
                      AsText(GetOr(data, "origem_estado", JText("")))))
  }

  const CampoColeta: string := "data_coleta_preferencial"

  /** `datetime.strptime(data['data_coleta_preferencial'], '%Y-%m-%d').date()
      if data.get('data_coleta_preferencial') else None`, evaluated among the
      arguments of `Cotacao(...)`. `strptime` stands for the library parse of
      a text, None where it raises ValueError; a truthy value that is not
      text makes it raise TypeError. Either exception reaches the handler's
      generic clause: 500. */
  function ColetaPreferencial(v: Json, strptime: string -> Option<nat>): (r: Result<Option<nat>, Resposta>)
    ensures !Truthy(v) ==> r == Ok(None)
    ensures r.Ok? && r.value.Some? ==> v.JText? && strptime(v.s) == r.value
    ensures Truthy(v) && v.JText? && strptime(v.s).Some? ==> r == Ok(strptime(v.s))
    ensures r.Err? <==> Truthy(v) && (v.JText? ==> strptime(v.s).None?)
    ensures r.Err? ==> r.error == Resposta(500, ErroInterno)
  {
    if !Truthy(v) then Ok(None)
    else if v.JText? && strptime(v.s).Some? then Ok(strptime(v.s))
    else Err(Resposta(500, ErroInterno))
  }

  /** What a successful validation yields for the new row. */
  datatype NovaCotacao = NovaCotacao(empresa: Empresa, envio: Envio)

  function MontarEnvio(emp: Empresa, data: Dados, peso: real, coleta: Option<nat>): (r: Option<Envio>)
    ensures r.Some? ==> r.value.pesoKg == peso && r.value.dataColetaPreferencial == coleta
    ensures r.Some? ==> Get(data, "cliente_cnpj").JText? && r.value.clienteCnpj == DigitsOnly(Get(data, "cliente_cnpj").s)
    ensures r.Some? ==> GetOr(data, "destino_cep", JText("")).JText?
                        && r.value.destino.cep == DigitsOnly(GetOr(data, "destino_cep", JText("")).s)
    ensures r.Some? ==> Origem(emp, data) == Some(r.value.origem)
  {
    match Origem(emp, data)
    case None => None
    case Some(origem) =>
      match DigitosDe(GetOr(data, "destino_cep", JText("")))
      case None => None
      case Some(cepDestino) =>
        match DigitosDe(Get(data, "cliente_cnpj"))
        case None => None
        case Some(cnpj) =>
          var destino := Endereco(cepDestino, AsText(GetOr(data, "destino_endereco", JText(""))),
                                  AsText(GetOr(data, "destino_cidade", JText(""))),
                                  AsText(GetOr(data, "destino_estado", JText(""))));
          Some(Envio(AsText(Get(data, "cliente_nome")), cnpj, origem, destino, peso, coleta))
  }

  /** The checks after the required-field loop, up to the maritime values:
      the transport mode and the weight, or the error response. */
  function ValidarCarga(modo: string, data: Dados): (r: Result<(Empresa, real), Resposta>)
    ensures r.Ok? ==> CnpjValidoDe(Get(data, "cliente_cnpj")) == Some(true)
    ensures r.Ok? ==> ErroDeCep(modo, data).None? && PesoDaCarga(modo, data) == Ok(r.value.1)
    ensures r.Ok? ==> EmpresaDaRequisicao(data) == Some(r.value.0)
    ensures r.Ok? && r.value.0 == BrcargoMaritimo ==> ErroMaritimo(data).None?
  {
    match CnpjValidoDe(Get(data, "cliente_cnpj"))
    case None => Err(Resposta(500, ErroInterno))
    case Some(ok) =>
      if !ok then Err(Resposta(400, CnpjInvalido))
      else
        match ErroDeCep(modo, data)
        case Some(e) => Err(e)
        case None =>
          match PesoDaCarga(modo, data)
          case Err(e) => Err(e)
          case Ok(peso) =>
            match EmpresaDaRequisicao(data)
            case None =>
              Err(Resposta(400, EmpresaTransporteInvalida(GetOr(data, "empresa_transporte", JText("brcargo_rodoviario")))))
            case Some(emp) =>
              match (if emp == BrcargoMaritimo then ErroMaritimo(data) else None)
              case Some(e) => Err(e)
              case None => Ok((emp, peso))
  }

  /** Everything after the required-field loop, in source order. */
  function ValidarAposCampos(modo: string, data: Dados, strptime: string -> Option<nat>): (r: Result<NovaCotacao, Resposta>)
    ensures r.Ok? ==> CnpjValidoDe(Get(data, "cliente_cnpj")) == Some(true)
    ensures r.Ok? ==> ErroDeCep(modo, data).None? && PesoDaCarga(modo, data) == Ok(r.value.envio.pesoKg)
    ensures r.Ok? ==> EmpresaDaRequisicao(data) == Some(r.value.empresa)
    ensures r.Ok? && r.value.empresa == BrcargoMaritimo ==> ErroMaritimo(data).None?
    ensures r.Ok? ==> ColetaPreferencial(Get(data, CampoColeta), strptime) == Ok(r.value.envio.dataColetaPreferencial)
    ensures r.Ok? ==> MontarEnvio(r.value.empresa, data, r.value.envio.pesoKg, r.value.envio.dataColetaPreferencial)
                      == Some(r.value.envio)
  {
    match ValidarCarga(modo, data)
    case Err(e) => Err(e)
    case Ok((emp, peso)) =>
      match ColetaPreferencial(Get(data, CampoColeta), strptime)
      case Err(e) => Err(e)
      case Ok(coleta) =>
        match MontarEnvio(emp, data, peso, coleta)
        case None => Err(Resposta(500, ErroInterno))
        case Some(envio) => Ok(NovaCotacao(emp, envio))
  }

  /** The whole validation of `criar_cotacao`: the new row's transport mode
      and shipment columns, or the error response. */
  function ValidarCriacao(u: User, data: Dados, strptime: string -> Option<nat>): (r: Result<NovaCotacao, Resposta>)
    ensures r.Ok? ==> PodeCriar(u.role)
    ensures !PodeCriar(u.role) ==> r == Err(Resposta(403, PerfilSemPermissao))
    ensures r.Ok? ==> ModoMinusculo(data).Some?
                      && forall c :: c in CamposObrigatorios(ModoMinusculo(data).value, TipoOrigem(data))
                                     ==> Truthy(Get(data, c))
  {
    if !PodeCriar(u.role) then Err(Resposta(403, PerfilSemPermissao))
    else
      match ModoMinusculo(data)
      case None => Err(Resposta(500, ErroInterno))
      case Some(modo) =>
        var campos := CamposObrigatorios(modo, TipoOrigem(data));
        match PrimeiroAusente(data, campos)
        case Some(i) => Err(Resposta(400, CampoObrigatorio(campos[i])))
        case None => ValidarAposCampos(modo, data, strptime)
  }

  // ---------------------------------------------------------------- properties

  /** A successful validation went through the stage after the field loop. */
  lemma ValidacaoAprovada(u: User, data: Dados, strptime: string -> Option<nat>)
    requires ValidarCriacao(u, data, strptime).Ok?
    ensures ModoMinusculo(data).Some?
    ensures ValidarAposCampos(ModoMinusculo(data).value, data, strptime) == ValidarCriacao(u, data, strptime)
  {
  }

  /** A mode given exactly as an enum value is its own lower-casing. */
  lemma ModoExatoMinusculo(data: Dados, e: Empresa)
    requires "empresa_transporte" in data && data["empresa_transporte"] == JText(EmpresaValue(e))
    ensures ModoMinusculo(data) == Some(EmpresaValue(e))
  {
    LowerOfLower(EmpresaValue(e));
  }

  /** The stored CNPJ is the 14 check-digit-valid digits of the request's CNPJ. */
  lemma CriacaoCnpjValido(u: User, data: Dados, strptime: string -> Option<nat>)
    requires ValidarCriacao(u, data, strptime).Ok?
    ensures var e := ValidarCriacao(u, data, strptime).value.envio;
            |e.clienteCnpj| == 14 && AllDigits(e.clienteCnpj) && CnpjValido(e.clienteCnpj)
  {
    ValidacaoAprovada(u, data, strptime);
    var s := Get(data, "cliente_cnpj").s;
    ValidadoresIgnoramNaoDigitos(s);
  }

  /** The stored weight is positive; for maritime it is the gross weight, and
      the net weight does not exceed it. */
  lemma CriacaoPesoPositivo(u: User, data: Dados, strptime: string -> Option<nat>)
    requires ValidarCriacao(u, data, strptime).Ok?
    ensures ValidarCriacao(u, data, strptime).value.envio.pesoKg > 0.0
    ensures var n := ValidarCriacao(u, data, strptime).value;
            n.empresa == BrcargoMaritimo ==>
              n.envio.origem.cep == "00000000" && n.envio.origem.estado == "SP"
              && PyFloat(Get(data, "gross_weight")) == Some(n.envio.pesoKg)
              && PyFloat(Get(data, "net_weight")).value <= n.envio.pesoKg
  {
    ValidacaoAprovada(u, data, strptime);
    var modo := ModoMinusculo(data).value;
    var n := ValidarCriacao(u, data, strptime).value;
    assert PesoDaCarga(modo, data) == Ok(n.envio.pesoKg);
    if n.empresa == BrcargoMaritimo {
      assert EmpresaDaRequisicao(data) == Some(BrcargoMaritimo);
      ModoExatoMinusculo(data, BrcargoMaritimo);
      assert ErroMaritimo(data).None?;
      assert "gross_weight" in data;
      assert Origem(n.empresa, data) == Some(n.envio.origem);
    }
  }

  /** The stored mode is exactly the request's value, or road when it is
      absent: a mode written in another case passes the lower-cased checks
      and is then refused. */
  lemma CriacaoModoExato(u: User, data: Dados, strptime: string -> Option<nat>)
    ensures ValidarCriacao(u, data, strptime).Ok? && "empresa_transporte" in data ==>
      data["empresa_transporte"] == JText(EmpresaValue(ValidarCriacao(u, data, strptime).value.empresa))
    ensures ValidarCriacao(u, data, strptime).Ok? && "empresa_transporte" !in data ==>
      ValidarCriacao(u, data, strptime).value.empresa == BrcargoRodoviario
  {
    if ValidarCriacao(u, data, strptime).Ok? {
      ValidacaoAprovada(u, data, strptime);
    }
  }

  /** With the mode given as road, the destination CEP is stored as 8 digits,
      and so is the origin CEP when the origin type is 'endereco'. */
  lemma CriacaoCepsRodoviarios(u: User, data: Dados, strptime: string -> Option<nat>)
    requires ValidarCriacao(u, data, strptime).Ok? && "empresa_transporte" in data
    requires ValidarCriacao(u, data, strptime).value.empresa == BrcargoRodoviario
    ensures var e := ValidarCriacao(u, data, strptime).value.envio;
            |e.destino.cep| == 8 && (TipoOrigem(data) == JText("endereco") ==> |e.origem.cep| == 8)
  {
    ValidacaoAprovada(u, data, strptime);
    assert EmpresaDaRequisicao(data) == Some(BrcargoRodoviario);
    ModoExatoMinusculo(data, BrcargoRodoviario);
    CepsRodoviariosAposCampos(data, strptime);
  }

  lemma CepsRodoviariosAposCampos(data: Dados, strptime: string -> Option<nat>)
    requires ValidarAposCampos("brcargo_rodoviario", data, strptime).Ok?
    ensures var e := ValidarAposCampos("brcargo_rodoviario", data, strptime).value.envio;
            |e.destino.cep| == 8 && (TipoOrigem(data) == JText("endereco") ==> |e.origem.cep| == 8)
  {
    var n := ValidarAposCampos("brcargo_rodoviario", data, strptime).value;
    assert MontarEnvio(n.empresa, data, n.envio.pesoKg, n.envio.dataColetaPreferencial) == Some(n.envio);
  }

  /** After the field loop, a missing maritime field can only be reported by
      the maritime checks, for a request whose raw mode is maritime. */
  lemma ErroMaritimoSoDaVerificacaoMaritima(modo: string, data: Dados, strptime: string -> Option<nat>)
    ensures var r := ValidarAposCampos(modo, data, strptime);
            r.Err? && r.error.motivo.CampoMaritimoObrigatorio? ==>
              EmpresaDaRequisicao(data) == Some(BrcargoMaritimo) && ErroMaritimo(data) == Some(r.error)
  {
    var coleta := ColetaPreferencial(Get(data, CampoColeta), strptime);
    assert coleta.Err? ==> coleta.error.motivo == ErroInterno;
    assert ErroDeCep(modo, data).Some? ==> !ErroDeCep(modo, data).value.motivo.CampoMaritimoObrigatorio?;
    assert PesoDaCarga(modo, data).Err? ==> !PesoDaCarga(modo, data).error.motivo.CampoMaritimoObrigatorio?;
  }

  /** The second maritime required-field check never fires: a maritime
      request reaching it already passed the first list, which contains it. */
  lemma SegundaVerificacaoMaritimaRedundante(u: User, data: Dados, strptime: string -> Option<nat>)
    ensures ValidarCriacao(u, data, strptime).Err? ==> !ValidarCriacao(u, data, strptime).error.motivo.CampoMaritimoObrigatorio?
  {
    if PodeCriar(u.role) && ModoMinusculo(data).Some? {
      var modo := ModoMinusculo(data).value;
      if PrimeiroAusente(data, CamposObrigatorios(modo, TipoOrigem(data))).None? {
        assert ValidarCriacao(u, data, strptime) == ValidarAposCampos(modo, data, strptime);
        CamposCompletosSemErroMaritimo(modo, data, strptime);
      }
    }
  }

  /** Past a complete required-field list, the maritime list cannot be short. */
  lemma CamposCompletosSemErroMaritimo(modo: string, data: Dados, strptime: string -> Option<nat>)
    requires ModoMinusculo(data) == Some(modo)
    requires PrimeiroAusente(data, CamposObrigatorios(modo, TipoOrigem(data))).None?
    ensures var r := ValidarAposCampos(modo, data, strptime);
            r.Err? ==> !r.error.motivo.CampoMaritimoObrigatorio?
  {
    var campos := CamposObrigatorios(modo, TipoOrigem(data));
    ErroMaritimoSoDaVerificacaoMaritima(modo, data, strptime);
    if EmpresaDaRequisicao(data) == Some(BrcargoMaritimo) {
      ModoExatoMinusculo(data, BrcargoMaritimo);
      assert forall c :: c in CamposMaritimosRepetidos ==> c in campos;
      assert PrimeiroAusente(data, CamposMaritimosRepetidos).None?;
      assert ErroMaritimo(data).Some? ==> !ErroMaritimo(data).value.motivo.CampoMaritimoObrigatorio?;
    }
  }

  /** Without a transport mode the request is checked against the road list
      but no CEP is validated, and it is stored as road. */
  lemma CriacaoSemModoNaoValidaCep(data: Dados)
    requires "empresa_transporte" !in data
    ensures ModoMinusculo(data) == Some("")
    ensures ErroDeCep("", data).None?
    ensures "origem_cep" in CamposObrigatorios("", TipoOrigem(data))
    ensures EmpresaDaRequisicao(data) == Some(BrcargoRodoviario)
  {
  }

  /** A truthy `data_coleta_preferencial` that `strptime` rejects, or that is
      not text, never lets a quote be created; where it is the only defect of
      the request (the same request passes with a parse that accepts it),
      the answer is the generic 500. */
  lemma ColetaInvalidaNadaCria(u: User, data: Dados, strptime: string -> Option<nat>, outro: string -> Option<nat>)
    ensures ColetaPreferencial(Get(data, CampoColeta), strptime).Err? ==> ValidarCriacao(u, data, strptime).Err?
    ensures ColetaPreferencial(Get(data, CampoColeta), strptime).Err? && ValidarCriacao(u, data, outro).Ok? ==>
      ValidarCriacao(u, data, strptime) == Err(Resposta(500, ErroInterno))
  {
    if ValidarCriacao(u, data, strptime).Ok? {
      ValidacaoAprovada(u, data, strptime);
    }
    if ValidarCriacao(u, data, outro).Ok? {
      ValidacaoAprovada(u, data, outro);
    }
  }

  // ---------------------------------------------------------------- numbering the new row

  /** The number the new row is stored under, or None where the request
      fails on it. As written, `Cotacao.__init__` calls `gerar_numero_cotacao`:
      its `int()` may raise, and a number the day already holds is refused by
      the unique column at the commit; either way the handler's `except`
      rolls back. Corrected, the numeric-maximum rule never fails. */
  function NumeroDaNovaCotacao(l: Leitura, ns: seq<string>, hoje: string): (r: Option<string>)
    ensures r.Some? ==> r.value !in ns && IsPrefix(Prefixo(hoje), r.value)
    ensures l.Corrigido? ==> r == Some(GerarNumeroCorrigido(ns, hoje))
    ensures l.ComoEscrito? && r.Some? ==> GerarNumeroCotacao(ns, hoje) == r
    ensures l.ComoEscrito? && r.None? ==>
      GerarNumeroCotacao(ns, hoje).None? || GerarNumeroCotacao(ns, hoje).value in ns
  {
    match l
    case Corrigido =>
      NumeroCorrigidoInedito(ns, hoje);
      Some(GerarNumeroCorrigido(ns, hoje))
    case ComoEscrito =>
      match GerarNumeroCotacao(ns, hoje)
      case None => None
      case Some(n) => if n in ns then None else Some(n)
  }

  /** On the day that holds 9999 and 10000, the numbering as written fails
      (it repeats 10000), while the corrected numbering still gives a number. */
  lemma NumeracaoFalhaApos9999(hoje: string)
    requires '-' !in hoje
    ensures var p := Prefixo(hoje);
            && NumeroDaNovaCotacao(ComoEscrito, [p + "9999", p + "10000"], hoje) == None
            && NumeroDaNovaCotacao(Corrigido, [p + "9999", p + "10000"], hoje).Some?
  {
    NumeroRepetidoApos9999(hoje);
  }

  /** While every number of the day is a 4-digit sequence below 9999, both
      readings number the new row alike and neither fails. */
  lemma NumeracoesConcordam(ns: seq<string>, hoje: string)
    requires '-' !in hoje
    requires forall x :: x in ns && IsPrefix(Prefixo(hoje), x) ==> SufixoBemFormado(Prefixo(hoje), x)
    ensures NumeroDaNovaCotacao(ComoEscrito, ns, hoje) == NumeroDaNovaCotacao(Corrigido, ns, hoje)
    ensures NumeroDaNovaCotacao(ComoEscrito, ns, hoje).Some?
  {
    NumeroInedito(ns, hoje);
    CorrigidoConcordaAbaixoDe9999(ns, hoje);
  }

  // ---------------------------------------------------------------- the handler

  /** `criar_cotacao`: validate, then build the row (numbered by
      `NumeroDaNovaCotacao` under the reading `l`, id assigned by the
      database) and log its creation with no previous status. A numbering
      failure rolls back and answers the generic 500. */
  method CriarCotacaoRota(l: Leitura, u: User, data: Dados, strptime: string -> Option<nat>, id: nat, numeros: seq<string>, hoje: string,
                          historico: Historico, agora: nat) returns (resp: Resposta, c: Cotacao?)
    modifies historico
    ensures ValidarCriacao(u, data, strptime).Err? ==>
      resp == ValidarCriacao(u, data, strptime).error && c == null && historico.registros == old(historico.registros)
    ensures ValidarCriacao(u, data, strptime).Ok? && NumeroDaNovaCotacao(l, numeros, hoje).None? ==>
      resp == Resposta(500, ErroInterno) && c == null && historico.registros == old(historico.registros)
    ensures ValidarCriacao(u, data, strptime).Ok? && NumeroDaNovaCotacao(l, numeros, hoje).Some? ==>
      var n := ValidarCriacao(u, data, strptime).value;
      && resp == Resposta(201, Sucesso) && c != null && fresh(c) && c.Valid()
      && c.Row() == NovaLinha(id, NumeroDaNovaCotacao(l, numeros, hoje).value, u.id, n.empresa, n.envio, agora)
      && c.Row().numero !in numeros
      && historico.registros == old(historico.registros)
                                + [HistoricoEntrada(id, u.id, None, Solicitada, CriadaPeloConsultor(u.nome), agora)]
  {
    ghost var esperado := ValidarCriacao(u, data, strptime);
    if !PodeCriar(u.role) {
      return Resposta(403, PerfilSemPermissao), null;
    }
    var modo := ModoMinusculo(data);
    if modo.None? {
      assert esperado == Err(Resposta(500, ErroInterno));
      return Resposta(500, ErroInterno), null;
    }
    var campos := CamposObrigatorios(modo.value, TipoOrigem(data));
    var ausente := PrimeiroCampoAusente(data, campos);
    if ausente.Some? {
      assert esperado == Err(Resposta(400, CampoObrigatorio(campos[ausente.value])));
      return Resposta(400, CampoObrigatorio(campos[ausente.value])), null;
    }
    var v := ValidarAposCampos(modo.value, data, strptime);
    assert esperado == v;
    if v.Err? {
      return v.error, null;
    }
    var numero := NumeroDaNovaCotacao(l, numeros, hoje);
    if numero.None? {
      return Resposta(500, ErroInterno), null;
    }
    c := new Cotacao(id, numero.value, u.id, v.value.empresa, v.value.envio, agora);
    var _ := historico.RegistrarMudanca(id, u.id, None, Solicitada, CriadaPeloConsultor(u.nome), agora);
    resp := Resposta(201, Sucesso);
  }
}
