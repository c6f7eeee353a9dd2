/** The front end's dashboard arithmetic (src/static/js/api.js): the filter
    cleaning of `getEmpresas`, the counting of `processarDadosDashboard` and
    the label maps. Values are JavaScript values; a quote is the part of the
    JSON object the counting reads. */
module Dashboard {
  import opened Common
  import opened QuoteModel

  /** The JavaScript values the counted fields can hold. */
  datatype JsValue = JsUndefined | JsNull | JsBool(b: bool) | JsNumber(x: real) | JsString(s: string)

  /** JavaScript truthiness (`x || default`, `if (x && ...)`). */
  predicate JsTruthy(v: JsValue) {
    match v
    case JsUndefined => false
    case JsNull => false
    case JsBool(b) => b
    case JsNumber(x) => x != 0.0
    case JsString(s) => s != ""
  }

  /** `String(v)`, the property key a value becomes. A number is written as
      its sign and the decimal digits of its integer part, truncated toward
      zero; the digits of a fraction are not modelled. */
  function JsToString(v: JsValue): (r: string)
    ensures JsTruthy(v) ==> r != ""
    ensures v.JsNumber? && v.x < 0.0 ==> r != "" && r[0] == '-'
    ensures v.JsNumber? && 0.0 <= v.x && v.x == v.x.Floor as real ==>
      AllDigits(r) && DecimalValue(r) == v.x.Floor
  {
    match v
    case JsUndefined => "undefined"
    case JsNull => "null"
    case JsBool(b) => if b then "true" else "false"
    case JsNumber(x) =>
      var magnitude := if x < 0.0 then -x else x;
      var n := magnitude.Floor;
      DecimalOfNatToDecimal(n);
      var digitos := if magnitude == n as real then NatToDecimal(n) else NatToDecimal(n) + ".…";
      if x < 0.0 then "-" + digitos else digitos
    case JsString(s) => s
  }

  // ---------------------------------------------------------------- getEmpresas

  /** One own property of the `filters` object. */
  datatype Par = Par(chave: string, valor: JsValue)

  /** The condition a filter value must meet to be sent. */
  predicate Valido(v: JsValue) {
    v != JsNull && v != JsUndefined && v != JsString("")
  }

  /** The filters `getEmpresas` keeps: exactly the entries whose value is not
      null, undefined or '', with their values unchanged; the order of
      `filters` is kept (`FiltrosValidosConcatena`). */
  function FiltrosValidos(filtros: seq<Par>): (r: seq<Par>)
    ensures forall p :: p in r <==> p in filtros && Valido(p.valor)
    ensures |r| <= |filtros|
    decreases |filtros|
  {
    if filtros == [] then []
    else
      var ini := FiltrosValidos(filtros[..|filtros| - 1]);
      var p := filtros[|filtros| - 1];
      assert forall x :: x in filtros <==> x in filtros[..|filtros| - 1] || x == p;
      if Valido(p.valor) then ini + [p] else ini
  }

  /** Cleaning works entry by entry, in order: cleaning a concatenation is
      the concatenation of the cleaned parts. */
  lemma {:induction false} FiltrosValidosConcatena(a: seq<Par>, b: seq<Par>)
    ensures FiltrosValidos(a + b) == FiltrosValidos(a) + FiltrosValidos(b)
    decreases |b|
  {
    if b == [] {
      assert a + b == a;
    } else {
      var b' := b[..|b| - 1];
      assert (a + b)[..|a + b| - 1] == a + b';
      assert (a + b)[|a + b| - 1] == b[|b| - 1];
      FiltrosValidosConcatena(a, b');
    }
  }

  /** Object keys are distinct. */
  predicate ChavesDistintas(filtros: seq<Par>) {
    forall i, j :: 0 <= i < j < |filtros| ==> filtros[i].chave != filtros[j].chave
  }

  /** Cleaning keeps the keys an object had distinct, and a kept key carries
      the very value it had in `filters`. */
  lemma {:induction false} FiltrosValidosPreservaChaves(filtros: seq<Par>)
    requires ChavesDistintas(filtros)
    ensures ChavesDistintas(FiltrosValidos(filtros))
    ensures forall p, q :: p in FiltrosValidos(filtros) && q in filtros && p.chave == q.chave ==> p == q
    decreases |filtros|
  {
    if filtros != [] {
      var ini := filtros[..|filtros| - 1];
      var p := filtros[|filtros| - 1];
      assert ChavesDistintas(ini);
      FiltrosValidosPreservaChaves(ini);
      forall x, y | x in FiltrosValidos(filtros) && y in filtros && x.chave == y.chave ensures x == y {
        var i :| 0 <= i < |filtros| && filtros[i] == x;
        var j :| 0 <= j < |filtros| && filtros[j] == y;
      }
      if Valido(p.valor) {
        var r := FiltrosValidos(ini) + [p];
        forall i, j | 0 <= i < j < |r| ensures r[i].chave != r[j].chave {
          if j == |r| - 1 {
            assert r[i] in FiltrosValidos(ini);
            var k :| 0 <= k < |ini| && ini[k] == r[i];
            assert filtros[k] == r[i];
          } else {
            assert r[i] == FiltrosValidos(ini)[i] && r[j] == FiltrosValidos(ini)[j];
          }
        }
      }
    }
  }

  /** `Object.keys(filters).forEach(...)`, copying the valid entries into `validFilters`. */
  method LimparFiltros(filtros: seq<Par>) returns (validos: seq<Par>)
    ensures validos == FiltrosValidos(filtros)
  {
    validos := [];
    for i := 0 to |filtros|
      invariant validos == FiltrosValidos(filtros[..i])
    {
      assert filtros[..i + 1][..i] == filtros[..i];
      if Valido(filtros[i].valor) {
        validos := validos + [filtros[i]];
      }
    }
    assert filtros[..|filtros|] == filtros;
  }

  // ---------------------------------------------------------------- counters

  /** One property of a counter object: a key and its count. */
  datatype Contagem = Contagem(chave: string, n: nat)

  /** Where `k` sits in the counter, or its length when absent. */
  function Posicao(t: seq<Contagem>, k: string): (i: nat)
    ensures i <= |t| && (i < |t| ==> t[i].chave == k)
    ensures forall j :: 0 <= j < i ==> t[j].chave != k
    decreases |t|
  {
    if t == [] || t[0].chave == k then 0 else 1 + Posicao(t[1..], k)
  }

  /** `obj[k] = (obj[k] || 0) + 1`: a present key is incremented in place, a
      new one is added last with 1 (insertion order). */
  function Incrementar(t: seq<Contagem>, k: string): (r: seq<Contagem>)
    ensures |r| == |t| || r == t + [Contagem(k, 1)]
  {
    var i := Posicao(t, k);
    if i < |t| then t[i := Contagem(k, t[i].n + 1)] else t + [Contagem(k, 1)]
  }

  /** The counter after counting `ks` in order. */
  function Tabular(ks: seq<string>): seq<Contagem>
    decreases |ks|
  {
    if ks == [] then [] else Incrementar(Tabular(ks[..|ks| - 1]), ks[|ks| - 1])
  }

  /** How many times `k` occurs in `ks`. */
  function Ocorrencias(ks: seq<string>, k: string): (c: nat)
    ensures c <= |ks|
    decreases |ks|
  {
    if ks == [] then 0 else Ocorrencias(ks[..|ks| - 1], k) + (if ks[|ks| - 1] == k then 1 else 0)
  }

  /** The sum of a counter's counts. */
  function Soma(t: seq<Contagem>): nat
    decreases |t|
  {
    if t == [] then 0 else Soma(t[..|t| - 1]) + t[|t| - 1].n
  }

  predicate Distintas(t: seq<Contagem>) {
    forall i, j :: 0 <= i < j < |t| ==> t[i].chave != t[j].chave
  }

  lemma {:induction false} SomaAtualizar(t: seq<Contagem>, i: nat, c: Contagem)
    requires i < |t|
    ensures Soma(t[i := c]) == Soma(t) - t[i].n + c.n
    decreases |t|
  {
    var u := t[i := c];
    if i < |t| - 1 {
      assert u[..|u| - 1] == t[..|t| - 1][i := c];
      SomaAtualizar(t[..|t| - 1], i, c);
    } else {
      assert u[..|u| - 1] == t[..|t| - 1];
    }
  }

  /** Counting one more key adds one to the total. */
  lemma SomaIncrementar(t: seq<Contagem>, k: string)
    ensures Soma(Incrementar(t, k)) == Soma(t) + 1
  {
    var i := Posicao(t, k);
    if i < |t| {
      SomaAtualizar(t, i, Contagem(k, t[i].n + 1));
    } else {
      assert (t + [Contagem(k, 1)])[..|t|] == t;
    }
  }

  /** The counts of a counter sum to the number of counted keys. */
  lemma {:induction false} TabularSoma(ks: seq<string>)
    ensures Soma(Tabular(ks)) == |ks|
    decreases |ks|
  {
    if ks != [] {
      TabularSoma(ks[..|ks| - 1]);
      SomaIncrementar(Tabular(ks[..|ks| - 1]), ks[|ks| - 1]);
    }
  }

  lemma OcorrenciasAposUltimo(ks: seq<string>, k: string, x: string)
    ensures Ocorrencias(ks + [k], x) == Ocorrencias(ks, x) + (if k == x then 1 else 0)
  {
    assert (ks + [k])[..|ks|] == ks;
  }

  lemma {:induction false} OcorrenciasAusente(ks: seq<string>, k: string)
    requires k !in ks
    ensures Ocorrencias(ks, k) == 0
    decreases |ks|
  {
    if ks != [] {
      assert ks[..|ks| - 1] <= ks;
      OcorrenciasAusente(ks[..|ks| - 1], k);
    }
  }

  /** `t` is the counter of `ks`: distinct keys, exactly the counted ones,
      each with its number of occurrences. */
  ghost predicate ContaCorreta(ks: seq<string>, t: seq<Contagem>) {
    && Distintas(t)
    && (forall x :: x in ks <==> exists i :: 0 <= i < |t| && t[i].chave == x)
    && (forall i :: 0 <= i < |t| ==> t[i].n == Ocorrencias(ks, t[i].chave))
  }

  /** A counter has one entry per distinct counted key, in order of first
      occurrence, holding the number of its occurrences. */
  lemma {:induction false} TabularConteudo(ks: seq<string>)
    ensures Distintas(Tabular(ks))
    ensures forall k :: k in ks <==> exists i :: 0 <= i < |Tabular(ks)| && Tabular(ks)[i].chave == k
    ensures forall i :: 0 <= i < |Tabular(ks)| ==> Tabular(ks)[i].n == Ocorrencias(ks, Tabular(ks)[i].chave)
    decreases |ks|
  {
    if ks != [] {
      var ini := ks[..|ks| - 1];
      var k := ks[|ks| - 1];
      assert ks == ini + [k];
      TabularConteudo(ini);
      assert Tabular(ks) == Incrementar(Tabular(ini), k);
      IncrementarConta(ini, k, Tabular(ini));
    }
  }

  /** Counting one more key keeps the counter correct. */
  lemma IncrementarConta(ini: seq<string>, k: string, t: seq<Contagem>)
    requires ContaCorreta(ini, t)
    ensures ContaCorreta(ini + [k], Incrementar(t, k))
  {
    var ks := ini + [k];
    var r := Incrementar(t, k);
    var p := Posicao(t, k);
    assert ks[..|ks| - 1] == ini;
    forall x ensures Ocorrencias(ks, x) == Ocorrencias(ini, x) + (if k == x then 1 else 0) {
      OcorrenciasAposUltimo(ini, k, x);
    }
    if p < |t| {
      IncrementarExistente(ini, k, t);
    } else {
      IncrementarNovo(ini, k, t);
    }
  }

  lemma IncrementarExistente(ini: seq<string>, k: string, t: seq<Contagem>)
    requires ContaCorreta(ini, t) && Posicao(t, k) < |t|
    requires forall x :: Ocorrencias(ini + [k], x) == Ocorrencias(ini, x) + (if k == x then 1 else 0)
    ensures ContaCorreta(ini + [k], Incrementar(t, k))
  {
    var ks := ini + [k];
    var r := Incrementar(t, k);
    var p := Posicao(t, k);
    assert r == t[p := Contagem(k, t[p].n + 1)];
    forall i | 0 <= i < |r| ensures r[i].n == Ocorrencias(ks, r[i].chave) {
      if i != p {
        assert r[i] == t[i] && t[i].chave != k;
      }
    }
    forall x ensures x in ks <==> exists i :: 0 <= i < |r| && r[i].chave == x {
      if x == k {
        assert r[p].chave == x;
      }
      if x in ks && x != k {
        assert x in ini;
        var i :| 0 <= i < |t| && t[i].chave == x;
        assert r[i].chave == x;
      }
      if exists i :: 0 <= i < |r| && r[i].chave == x {
        var i :| 0 <= i < |r| && r[i].chave == x;
        if i != p {
          assert t[i].chave == x;
        }
      }
    }
  }

  lemma IncrementarNovo(ini: seq<string>, k: string, t: seq<Contagem>)
    requires ContaCorreta(ini, t) && Posicao(t, k) >= |t|
    requires forall x :: Ocorrencias(ini + [k], x) == Ocorrencias(ini, x) + (if k == x then 1 else 0)
    ensures ContaCorreta(ini + [k], Incrementar(t, k))
  {
    var ks := ini + [k];
    var r := Incrementar(t, k);
    assert r == t + [Contagem(k, 1)];
    assert k !in ini;
    OcorrenciasAusente(ini, k);
    forall i | 0 <= i < |r| ensures r[i].n == Ocorrencias(ks, r[i].chave) {
      if i < |t| {
        assert r[i] == t[i] && t[i].chave != k;
      }
    }
    forall x ensures x in ks <==> exists i :: 0 <= i < |r| && r[i].chave == x {
      if x in ks && x != k {
        assert x in ini;
        var i :| 0 <= i < |t| && t[i].chave == x;
        assert r[i].chave == x;
      }
      if x == k {
        assert r[|t|].chave == x;
      }
      if exists i :: 0 <= i < |r| && r[i].chave == x {
        var i :| 0 <= i < |r| && r[i].chave == x;
        if i < |t| {
          assert t[i].chave == x;
        }
      }
    }
  }

  // ---------------------------------------------------------------- processarDadosDashboard

  /** The fields of a quote object the dashboard reads. */
  datatype CotacaoJs = CotacaoJs(status: JsValue, modalidade: JsValue, operadorResponsavel: JsValue, valorFrete: JsValue)

  const NaoAtribuido: string := "Não atribuído"

  /** `v || padrao` used as a property key. */
  function ChaveDe(v: JsValue, padrao: string): (k: string)
    ensures !JsTruthy(v) ==> k == padrao
    ensures JsTruthy(v) ==> k == JsToString(v)
    ensures padrao != "" ==> k != ""
  {
    if JsTruthy(v) then JsToString(v) else padrao
  }

  function ChavesStatus(cs: seq<CotacaoJs>): (ks: seq<string>)
    ensures |ks| == |cs| && forall i :: 0 <= i < |cs| ==> ks[i] == ChaveDe(cs[i].status, "solicitada")
  {
    seq(|cs|, i requires 0 <= i < |cs| => ChaveDe(cs[i].status, "solicitada"))
  }

  function ChavesModalidade(cs: seq<CotacaoJs>): (ks: seq<string>)
    ensures |ks| == |cs| && forall i :: 0 <= i < |cs| ==> ks[i] == ChaveDe(cs[i].modalidade, "brcargo_rodoviario")
  {
    seq(|cs|, i requires 0 <= i < |cs| => ChaveDe(cs[i].modalidade, "brcargo_rodoviario"))
  }

  function ChavesOperador(cs: seq<CotacaoJs>): (ks: seq<string>)
    ensures |ks| == |cs| && forall i :: 0 <= i < |cs| ==> ks[i] == ChaveDe(cs[i].operadorResponsavel, NaoAtribuido)
  {
    seq(|cs|, i requires 0 <= i < |cs| => ChaveDe(cs[i].operadorResponsavel, NaoAtribuido))
  }

  /** A quote counted as finalized: truthy `valor_frete` and status 'finalizada'. */
  predicate ContaComoFinalizada(c: CotacaoJs) {
    JsTruthy(c.valorFrete) && c.status == JsString("finalizada")
  }

  function Finalizadas(cs: seq<CotacaoJs>): (n: nat)
    ensures n <= |cs|
    decreases |cs|
  {
    if cs == [] then 0 else Finalizadas(cs[..|cs| - 1]) + (if ContaComoFinalizada(cs[|cs| - 1]) then 1 else 0)
  }

  /** `cotacoes.filter(c => c.operador_responsavel === k && c.status === 'finalizada').length`:
      a strict comparison with the key, with no `valor_frete` condition. */
  function FinalizadasDoOperador(cs: seq<CotacaoJs>, k: string): (n: nat)
    ensures n <= |cs|
    decreases |cs|
  {
    if cs == [] then 0
    else
      var c := cs[|cs| - 1];
      FinalizadasDoOperador(cs[..|cs| - 1], k)
      + (if c.operadorResponsavel == JsString(k) && c.status == JsString("finalizada") then 1 else 0)
  }

  /** An operator bucket never has more finalized quotes than quotes. */
  lemma {:induction false} FinalizadasDoOperadorLimitadas(cs: seq<CotacaoJs>, k: string)
    requires k != ""
    ensures FinalizadasDoOperador(cs, k) <= Ocorrencias(ChavesOperador(cs), k)
    decreases |cs|
  {
    if cs != [] {
      var ini := cs[..|cs| - 1];
      FinalizadasDoOperadorLimitadas(ini, k);
      assert ChavesOperador(cs)[..|cs| - 1] == ChavesOperador(ini);
    }
  }

  /** The 'Não atribuído' bucket's finalized count compares against the
      literal text, so quotes without an operator never count in it. */
  lemma {:induction false} NaoAtribuidoSemFinalizadas(cs: seq<CotacaoJs>)
    requires forall i :: 0 <= i < |cs| ==> !cs[i].operadorResponsavel.JsString?
    ensures FinalizadasDoOperador(cs, NaoAtribuido) == 0
    decreases |cs|
  {
    if cs != [] {
      NaoAtribuidoSemFinalizadas(cs[..|cs| - 1]);
    }
  }

  /** `Math.round(finalizadas / total * 100)`, or 0 for an empty list, on
      exact rationals: the integer nearest to 100·f/n, halves rounded up. */
  function TaxaConversao(f: nat, n: nat): (r: nat)
    requires f <= n
    ensures r <= 100
    ensures n == 0 ==> r == 0
    ensures n > 0 ==> r * (2 * n) <= 200 * f + n < (r + 1) * (2 * n)
  {
    if n == 0 then 0
    else
      var r := (200 * f + n) / (2 * n);
      assert 200 * f + n < 101 * (2 * n);
      TaxaLimitada(200 * f + n, 2 * n, r);
      r
  }

  lemma TaxaLimitada(a: nat, b: nat, r: nat)
    requires b > 0 && a < 101 * b && r == a / b
    ensures r <= 100 && r * b <= a < (r + 1) * b
  {
    if r > 100 {
      MultiplicacaoMonotona(101, r, b);
    }
  }

  datatype Metricas = Metricas(total: nat, finalizadas: nat, pendentes: int, taxaConversao: nat)

  /** An entry of `porStatus` / `porModalidade`: key, count and label text. */
  datatype Rotulada = Rotulada(chave: string, count: nat, rotulo: string)

  datatype EntradaOperador = EntradaOperador(operador: string, count: nat, finalizadas: nat)

  datatype Painel = Painel(
    metricas: Metricas,
    porStatus: seq<Rotulada>,
    porModalidade: seq<Rotulada>,
    porOperador: seq<EntradaOperador>)

  function Entradas(r: seq<Rotulada>): (t: seq<Contagem>)
    ensures |t| == |r| && forall i :: 0 <= i < |r| ==> t[i] == Contagem(r[i].chave, r[i].count)
  {
    seq(|r|, i requires 0 <= i < |r| => Contagem(r[i].chave, r[i].count))
  }

  /** A counter's entries in insertion order, each with its label. */
  function Rotular(t: seq<Contagem>, rotulo: string -> string): (rs: seq<Rotulada>)
    ensures Entradas(rs) == t
    ensures forall i :: 0 <= i < |rs| ==> rs[i].rotulo == rotulo(rs[i].chave)
  {
    var rs := seq(|t|, i requires 0 <= i < |t| => Rotulada(t[i].chave, t[i].n, rotulo(t[i].chave)));
    assert Entradas(rs) == t;
    rs
  }

  /** The operator counter's entries, each with that operator's finalized quotes. */
  /** The operator and count of each operator bucket. */
  function EntradasOperador(r: seq<EntradaOperador>): (t: seq<Contagem>)
    ensures |t| == |r| && forall i :: 0 <= i < |r| ==> t[i] == Contagem(r[i].operador, r[i].count)
  {
    seq(|r|, i requires 0 <= i < |r| => Contagem(r[i].operador, r[i].count))
  }

  function PorOperador(cs: seq<CotacaoJs>, t: seq<Contagem>): (r: seq<EntradaOperador>)
    ensures |r| == |t| && EntradasOperador(r) == t
    ensures forall i :: 0 <= i < |r| ==>
      Contagem(r[i].operador, r[i].count) == t[i] && r[i].finalizadas == FinalizadasDoOperador(cs, r[i].operador)
  {
    seq(|t|, i requires 0 <= i < |t| => EntradaOperador(t[i].chave, t[i].n, FinalizadasDoOperador(cs, t[i].chave)))
  }

  /** Each operator bucket has at most as many finalized quotes as quotes. */
  lemma PorOperadorLimitado(cs: seq<CotacaoJs>)
    ensures forall i :: 0 <= i < |Tabular(ChavesOperador(cs))| ==>
      FinalizadasDoOperador(cs, Tabular(ChavesOperador(cs))[i].chave) <= Tabular(ChavesOperador(cs))[i].n
  {
    var t := Tabular(ChavesOperador(cs));
    TabularConteudo(ChavesOperador(cs));
    forall i | 0 <= i < |t| ensures FinalizadasDoOperador(cs, t[i].chave) <= t[i].n {
      var k := t[i].chave;
      assert k in ChavesOperador(cs);
      var j :| 0 <= j < |cs| && ChavesOperador(cs)[j] == k;
      FinalizadasDoOperadorLimitadas(cs, k);
    }
  }

  /** Counting one more key is one `Incrementar`. */
  lemma TabularUltimo(ks: seq<string>, k: string)
    ensures Tabular(ks + [k]) == Incrementar(Tabular(ks), k)
  {
    assert (ks + [k])[..|ks|] == ks;
  }

  /** What one more quote adds to each counter and to `finalizadas`. */
  lemma UmaCotacaoAMais(cs: seq<CotacaoJs>, i: nat)
    requires i < |cs|
    ensures Tabular(ChavesStatus(cs[..i + 1])) == Incrementar(Tabular(ChavesStatus(cs[..i])), ChaveDe(cs[i].status, "solicitada"))
    ensures Tabular(ChavesModalidade(cs[..i + 1]))
         == Incrementar(Tabular(ChavesModalidade(cs[..i])), ChaveDe(cs[i].modalidade, "brcargo_rodoviario"))
    ensures Tabular(ChavesOperador(cs[..i + 1]))
         == Incrementar(Tabular(ChavesOperador(cs[..i])), ChaveDe(cs[i].operadorResponsavel, NaoAtribuido))
    ensures Finalizadas(cs[..i + 1]) == Finalizadas(cs[..i]) + (if ContaComoFinalizada(cs[i]) then 1 else 0)
  {
    var pre := cs[..i + 1];
    assert pre[..i] == cs[..i];
    assert ChavesStatus(pre) == ChavesStatus(cs[..i]) + [ChaveDe(cs[i].status, "solicitada")];
    assert ChavesModalidade(pre) == ChavesModalidade(cs[..i]) + [ChaveDe(cs[i].modalidade, "brcargo_rodoviario")];
    assert ChavesOperador(pre) == ChavesOperador(cs[..i]) + [ChaveDe(cs[i].operadorResponsavel, NaoAtribuido)];
    TabularUltimo(ChavesStatus(cs[..i]), ChaveDe(cs[i].status, "solicitada"));
    TabularUltimo(ChavesModalidade(cs[..i]), ChaveDe(cs[i].modalidade, "brcargo_rodoviario"));
    TabularUltimo(ChavesOperador(cs[..i]), ChaveDe(cs[i].operadorResponsavel, NaoAtribuido));
  }

  /** The `forEach` loop of `processarDadosDashboard`: the three counters and
      the number of finalized quotes. */
  method ContarCotacoes(cotacoes: seq<CotacaoJs>)
    returns (porStatus: seq<Contagem>, porModalidade: seq<Contagem>, porOperador: seq<Contagem>, finalizadas: nat)
    ensures porStatus == Tabular(ChavesStatus(cotacoes))
    ensures porModalidade == Tabular(ChavesModalidade(cotacoes))
    ensures porOperador == Tabular(ChavesOperador(cotacoes))
    ensures finalizadas == Finalizadas(cotacoes)
  {
    porStatus, porModalidade, porOperador, finalizadas := [], [], [], 0;
    for i := 0 to |cotacoes|
      invariant porStatus == Tabular(ChavesStatus(cotacoes[..i]))
      invariant porModalidade == Tabular(ChavesModalidade(cotacoes[..i]))
      invariant porOperador == Tabular(ChavesOperador(cotacoes[..i]))
      invariant finalizadas == Finalizadas(cotacoes[..i])
    {
      var c := cotacoes[i];
      UmaCotacaoAMais(cotacoes, i);
      porStatus := Incrementar(porStatus, ChaveDe(c.status, "solicitada"));
      porModalidade := Incrementar(porModalidade, ChaveDe(c.modalidade, "brcargo_rodoviario"));
      porOperador := Incrementar(porOperador, ChaveDe(c.operadorResponsavel, NaoAtribuido));
      if JsTruthy(c.valorFrete) && c.status == JsString("finalizada") {
        finalizadas := finalizadas + 1;
      }
    }
    assert cotacoes[..|cotacoes|] == cotacoes;
  }

  /** `processarDadosDashboard` without the float parts: the counting loop,
      then each counter becomes its entries in insertion order. Every counter
      sums to the number of quotes, each operator bucket has at most as many
      finalized quotes as quotes, and `pendentes = total - finalizadas` is
      not negative. */
  method ProcessarDadosDashboard(cotacoes: seq<CotacaoJs>) returns (p: Painel)
    ensures p.metricas == Metricas(|cotacoes|, Finalizadas(cotacoes), |cotacoes| - Finalizadas(cotacoes),
                                   TaxaConversao(Finalizadas(cotacoes), |cotacoes|))
    ensures 0 <= p.metricas.pendentes <= p.metricas.total && p.metricas.taxaConversao <= 100
    ensures Entradas(p.porStatus) == Tabular(ChavesStatus(cotacoes))
    ensures Entradas(p.porModalidade) == Tabular(ChavesModalidade(cotacoes))
    ensures forall i :: 0 <= i < |p.porStatus| ==> p.porStatus[i].rotulo == LabelStatus(p.porStatus[i].chave)
    ensures forall i :: 0 <= i < |p.porModalidade| ==> p.porModalidade[i].rotulo == LabelModalidade(p.porModalidade[i].chave)
    ensures Soma(Entradas(p.porStatus)) == |cotacoes| && Soma(Entradas(p.porModalidade)) == |cotacoes|
    ensures |p.porOperador| == |Tabular(ChavesOperador(cotacoes))|
    ensures Soma(EntradasOperador(p.porOperador)) == |cotacoes|
    ensures forall i :: 0 <= i < |p.porOperador| ==>
      && Contagem(p.porOperador[i].operador, p.porOperador[i].count) == Tabular(ChavesOperador(cotacoes))[i]
      && p.porOperador[i].finalizadas == FinalizadasDoOperador(cotacoes, p.porOperador[i].operador)
      && p.porOperador[i].finalizadas <= p.porOperador[i].count
  {
    var porStatus, porModalidade, porOperador, finalizadas := ContarCotacoes(cotacoes);
    var total := |cotacoes|;
    var metricas := Metricas(total, finalizadas, total - finalizadas, TaxaConversao(finalizadas, total));
    var rs := Rotular(porStatus, LabelStatus);
    var rm := Rotular(porModalidade, LabelModalidade);
    var ro := PorOperador(cotacoes, porOperador);
    TabularSoma(ChavesStatus(cotacoes));
    TabularSoma(ChavesModalidade(cotacoes));
    TabularSoma(ChavesOperador(cotacoes));
    PorOperadorLimitado(cotacoes);
    p := Painel(metricas, rs, rm, ro);
  }

  // ---------------------------------------------------------------- server quotes

  /** The keys of `Cotacao.to_dict()` that bear on the dashboard: the status
      value, `empresa_transporte`, `operador_nome` and `cotacao_valor_frete`
      (a float, or null when the column is empty or zero). */
  datatype CotacaoDict = CotacaoDict(status: JsValue, empresaTransporte: JsValue, operadorNome: JsValue,
                                     cotacaoValorFrete: JsValue)

  /** `to_dict()` of a row, with the operators' names by id. */
  function ParaDict(q: CotacaoRow, nomes: map<nat, string>): CotacaoDict {
    CotacaoDict(
      JsString(StatusValue(q.status)),
      JsString(EmpresaValue(q.empresaTransporte)),
      if q.operadorId.Some? && q.operadorId.value in nomes then JsString(nomes[q.operadorId.value]) else JsNull,
      if q.valorFrete.Some? && q.valorFrete.value != 0.0 then JsNumber(q.valorFrete.value) else JsNull)
  }

  /** What `processarDadosDashboard` reads from a server quote as written:
      `modalidade`, `operador_responsavel` and `valor_frete` are keys the
      dictionary does not have, so they read as undefined. */
  function LidoComoEscrito(d: CotacaoDict): CotacaoJs {
    CotacaoJs(d.status, JsUndefined, JsUndefined, JsUndefined)
  }

  /** The evident intent: the mode, operator and freight under the names the
      server gives them. */
  function LidoCorrigido(d: CotacaoDict): CotacaoJs {
    CotacaoJs(d.status, d.empresaTransporte, d.operadorNome, d.cotacaoValorFrete)
  }

  function ComoEscrito(rows: seq<CotacaoRow>, nomes: map<nat, string>): (cs: seq<CotacaoJs>)
    ensures |cs| == |rows| && forall i :: 0 <= i < |rows| ==> cs[i] == LidoComoEscrito(ParaDict(rows[i], nomes))
  {
    seq(|rows|, i requires 0 <= i < |rows| => LidoComoEscrito(ParaDict(rows[i], nomes)))
  }

  function Corrigido(rows: seq<CotacaoRow>, nomes: map<nat, string>): (cs: seq<CotacaoJs>)
    ensures |cs| == |rows| && forall i :: 0 <= i < |rows| ==> cs[i] == LidoCorrigido(ParaDict(rows[i], nomes))
  {
    seq(|rows|, i requires 0 <= i < |rows| => LidoCorrigido(ParaDict(rows[i], nomes)))
  }

  /** The finalized rows that carry a non-zero freight value. */
  function FinalizadasComFrete(rows: seq<CotacaoRow>): (n: nat)
    ensures n <= |rows|
    decreases |rows|
  {
    if rows == [] then 0
    else
      var q := rows[|rows| - 1];
      FinalizadasComFrete(rows[..|rows| - 1])
      + (if q.status == Finalizada && q.valorFrete.Some? && q.valorFrete.value != 0.0 then 1 else 0)
  }

  /** As written, server data yields no finalized quote, one mode bucket
      (road) and one operator bucket ('Não atribuído'), whatever the rows. */
  lemma {:induction false} ServidorComoEscrito(rows: seq<CotacaoRow>, nomes: map<nat, string>)
    ensures Finalizadas(ComoEscrito(rows, nomes)) == 0
    ensures ChavesModalidade(ComoEscrito(rows, nomes)) == seq(|rows|, i => "brcargo_rodoviario")
    ensures ChavesOperador(ComoEscrito(rows, nomes)) == seq(|rows|, i => NaoAtribuido)
    decreases |rows|
  {
    if rows != [] {
      var ini := rows[..|rows| - 1];
      ServidorComoEscrito(ini, nomes);
      assert ComoEscrito(rows, nomes)[..|rows| - 1] == ComoEscrito(ini, nomes);
    }
  }

  /** A concrete case: one finalized road quote with freight 100 and an
      assigned operator shows zero finalized quotes and no operator. */
  lemma FinalizadaInvisivelComoEscrito(q: CotacaoRow, nomes: map<nat, string>)
    requires q.status == Finalizada && q.valorFrete == Some(100.0)
    requires q.operadorId.Some? && q.operadorId.value in nomes && nomes[q.operadorId.value] == "Maria"
    ensures FinalizadasComFrete([q]) == 1
    ensures Finalizadas(ComoEscrito([q], nomes)) == 0
    ensures Finalizadas(Corrigido([q], nomes)) == 1
    ensures ChavesOperador(ComoEscrito([q], nomes)) == [NaoAtribuido]
    ensures ChavesOperador(Corrigido([q], nomes)) == ["Maria"]
  {
    ServidorComoEscrito([q], nomes);
    ServidorCorrigido([q], nomes);
    assert [q][..0] == [];
  }

  /** Read under the server's names, a quote counts as finalized exactly when
      its row is FINALIZADA with a non-zero freight value. */
  lemma FinalizadaLida(q: CotacaoRow, nomes: map<nat, string>)
    ensures ContaComoFinalizada(LidoCorrigido(ParaDict(q, nomes)))
        <==> q.status == Finalizada && q.valorFrete.Some? && q.valorFrete.value != 0.0
  {
    assert StatusValue(q.status) == "finalizada" <==> q.status == Finalizada;
  }

  /** Read under the server's names, `finalizadas` counts exactly the
      finalized rows with a freight value. */
  lemma {:induction false} ServidorCorrigido(rows: seq<CotacaoRow>, nomes: map<nat, string>)
    ensures Finalizadas(Corrigido(rows, nomes)) == FinalizadasComFrete(rows)
    decreases |rows|
  {
    if rows != [] {
      var ini := rows[..|rows| - 1];
      ServidorCorrigido(ini, nomes);
      assert Corrigido(rows, nomes)[..|rows| - 1] == Corrigido(ini, nomes);
      FinalizadaLida(rows[|rows| - 1], nomes);
    }
  }

  /** Read under the server's names, each quote is bucketed under its own
      transport mode. */
  lemma ServidorCorrigidoPorModalidade(rows: seq<CotacaoRow>, nomes: map<nat, string>)
    ensures ChavesModalidade(Corrigido(rows, nomes))
         == seq(|rows|, i requires 0 <= i < |rows| => EmpresaValue(rows[i].empresaTransporte))
  {
    forall i | 0 <= i < |rows|
      ensures ChavesModalidade(Corrigido(rows, nomes))[i] == EmpresaValue(rows[i].empresaTransporte)
    {
      assert EmpresaValue(rows[i].empresaTransporte) != "";
    }
  }

  // ---------------------------------------------------------------- labels

  const RotulosStatus: map<string, string> := map[
    "solicitada" := "Solicitadas",
    "aceita_operador" := "Aceitas",
    "cotacao_enviada" := "Enviadas",
    "aceita_consultor" := "Aprovadas",
    "finalizada" := "Finalizadas",
    "cancelada" := "Canceladas"]

  const RotulosModalidade: map<string, string> := map[
    "brcargo_rodoviario" := "Rodoviário",
    "brcargo_maritimo" := "Marítimo",
    "brcargo_aereo" := "Aéreo"]

  /** `labels[k] || k`: the label of a known key, the key itself otherwise. */
  function Rotulo(labels: map<string, string>, k: string): (r: string)
    ensures k in labels && labels[k] != "" ==> r == labels[k]
    ensures k !in labels ==> r == k
  {
    if k in labels && labels[k] != "" then labels[k] else k
  }

  /** `getLabelStatus`: a status key with a label gets it, any other key
      comes back unchanged; a non-empty key never gets an empty label. */
  function LabelStatus(s: string): (r: string)
    ensures s in RotulosStatus ==> r == RotulosStatus[s]
    ensures s !in RotulosStatus ==> r == s
    ensures s != "" ==> r != ""
  {
    assert s in RotulosStatus ==> RotulosStatus[s] != "";
    Rotulo(RotulosStatus, s)
  }

  /** `getLabelModalidade`: likewise over the three transport modes. */
  function LabelModalidade(m: string): (r: string)
    ensures m in RotulosModalidade ==> r == RotulosModalidade[m]
    ensures m !in RotulosModalidade ==> r == m
    ensures m != "" ==> r != ""
  {
    assert m in RotulosModalidade ==> RotulosModalidade[m] != "";
    Rotulo(RotulosModalidade, m)
  }

  /** Of the six status values only 'negada_consultor' has no label and
      comes back unchanged; 'cancelada' is labelled but is not a status. */
  lemma LabelStatusFallback()
    ensures LabelStatus("negada_consultor") == "negada_consultor"
    ensures LabelStatus("solicitada") == "Solicitadas" && LabelStatus("aceita_operador") == "Aceitas"
    ensures LabelStatus("cotacao_enviada") == "Enviadas" && LabelStatus("aceita_consultor") == "Aprovadas"
    ensures LabelStatus("finalizada") == "Finalizadas"
  {
    assert "negada_consultor" !in RotulosStatus;
  }

  /** The air mode's value is 'frete_aereo', but the map knows 'brcargo_aereo':
      air quotes are shown under their raw value. */
  lemma LabelModalidadeFallback()
    ensures LabelModalidade("frete_aereo") == "frete_aereo"
    ensures LabelModalidade("brcargo_rodoviario") == "Rodoviário" && LabelModalidade("brcargo_maritimo") == "Marítimo"
  {
    assert "frete_aereo" !in RotulosModalidade;
  }
}
