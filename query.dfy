/** The query building blocks the routes compose over a snapshot of the
    `cotacoes` table: a WHERE clause (`Filtrar`), `count()` and
    `order_by(desc(data_solicitacao))`. */
module Query {
  import opened Common
  import opened QuoteModel

  /** The rows satisfying `p`, in table order. */
  function Filtrar(rows: seq<CotacaoRow>, p: CotacaoRow -> bool): (r: seq<CotacaoRow>)
    ensures |r| <= |rows|
    ensures forall x :: x in r <==> x in rows && p(x)
    ensures forall i :: 0 <= i < |r| ==> p(r[i])
    ensures multiset(r) <= multiset(rows)
    decreases |rows|
  {
    if rows == [] then []
    else
      var resto := Filtrar(rows[1..], p);
      assert rows == [rows[0]] + rows[1..];
      if p(rows[0]) then [rows[0]] + resto else resto
  }

  /** A filter that keeps everything changes nothing. */
  lemma {:induction false} FiltrarTudo(rows: seq<CotacaoRow>, p: CotacaoRow -> bool)
    requires forall x :: x in rows ==> p(x)
    ensures Filtrar(rows, p) == rows
    decreases |rows|
  {
    if rows != [] {
      FiltrarTudo(rows[1..], p);
    }
  }

  /** Two filters in a row are one filter on the conjunction. */
  lemma {:induction false} FiltrarDuasVezes(rows: seq<CotacaoRow>, p: CotacaoRow -> bool, q: CotacaoRow -> bool)
    ensures Filtrar(Filtrar(rows, p), q) == Filtrar(rows, x => p(x) && q(x))
    decreases |rows|
  {
    if rows != [] {
      FiltrarDuasVezes(rows[1..], p, q);
    }
  }

  /** Filters that agree on every row give the same result. */
  lemma {:induction false} FiltrarEquivalentes(rows: seq<CotacaoRow>, p: CotacaoRow -> bool, q: CotacaoRow -> bool)
    requires forall x :: x in rows ==> p(x) == q(x)
    ensures Filtrar(rows, p) == Filtrar(rows, q)
    decreases |rows|
  {
    if rows != [] {
      FiltrarEquivalentes(rows[1..], p, q);
    }
  }

  /** `query.filter(p).count()`. */
  function Contar(rows: seq<CotacaoRow>, p: CotacaoRow -> bool): (n: nat)
    ensures n <= |rows|
  {
    |Filtrar(rows, p)|
  }

  /** Ordered by request time, most recent first. */
  predicate Decrescente(r: seq<CotacaoRow>) {
    forall i, j :: 0 <= i < j < |r| ==> r[i].dataSolicitacao >= r[j].dataSolicitacao
  }

  /** Every row of `r` was requested no later than `d`. */
  predicate NaoPosterior(d: int, r: seq<CotacaoRow>) {
    forall y :: y in r ==> y.dataSolicitacao <= d
  }

  lemma DecrescenteCauda(r: seq<CotacaoRow>)
    requires Decrescente(r) && r != []
    ensures Decrescente(r[1..]) && NaoPosterior(r[0].dataSolicitacao, r[1..])
  {
    forall y | y in r[1..] ensures y.dataSolicitacao <= r[0].dataSolicitacao {
      var k :| 0 <= k < |r[1..]| && r[1..][k] == y;
      assert r[k + 1] == y;
    }
  }

  lemma DecrescenteNaFrente(x: CotacaoRow, r: seq<CotacaoRow>)
    requires Decrescente(r) && NaoPosterior(x.dataSolicitacao, r)
    ensures Decrescente([x] + r)
  {
    var s := [x] + r;
    forall i, j | 0 <= i < j < |s| ensures s[i].dataSolicitacao >= s[j].dataSolicitacao {
      assert s[j] == r[j - 1];
      if i > 0 {
        assert s[i] == r[i - 1];
      } else {
        assert r[j - 1] in r;
      }
    }
  }

  function Inserir(x: CotacaoRow, r: seq<CotacaoRow>): (s: seq<CotacaoRow>)
    requires Decrescente(r)
    ensures Decrescente(s)
    ensures forall y :: y in s <==> y == x || y in r
    ensures multiset(s) == multiset(r) + multiset{x}
    ensures |s| == |r| + 1
    decreases |r|
  {
    if r == [] || x.dataSolicitacao >= r[0].dataSolicitacao then
      assert NaoPosterior(x.dataSolicitacao, r) by {
        if r != [] {
          DecrescenteCauda(r);
        }
      }
      DecrescenteNaFrente(x, r);
      [x] + r
    else
      assert r == [r[0]] + r[1..];
      DecrescenteCauda(r);
      var resto := Inserir(x, r[1..]);
      assert NaoPosterior(r[0].dataSolicitacao, resto);
      DecrescenteNaFrente(r[0], resto);
      [r[0]] + resto
  }

  /** `order_by(desc(Cotacao.data_solicitacao))`: a permutation of the rows,
      most recent first (ties in an order the database chooses). */
  function OrdenarPorDataDesc(rows: seq<CotacaoRow>): (r: seq<CotacaoRow>)
    ensures Decrescente(r)
    ensures multiset(r) == multiset(rows)
    ensures |r| == |rows|
    decreases |rows|
  {
    if rows == [] then []
    else
      assert rows == [rows[0]] + rows[1..];
      Inserir(rows[0], OrdenarPorDataDesc(rows[1..]))
  }

  /** The result of a listing query before pagination: the selected rows
      sorted, and their count. */
  datatype Listagem = Listagem(itens: seq<CotacaoRow>, total: nat)

  function Listar(rows: seq<CotacaoRow>, p: CotacaoRow -> bool): (l: Listagem)
    ensures Decrescente(l.itens) && l.total == |l.itens|
    ensures forall x :: x in l.itens <==> x in rows && p(x)
    ensures multiset(l.itens) == multiset(Filtrar(rows, p))
  {
    var f := Filtrar(rows, p);
    var s := OrdenarPorDataDesc(f);
    assert forall x :: x in s <==> x in f by {
      forall x ensures x in s <==> x in f {
        assert x in s <==> x in multiset(s);
      }
    }
    Listagem(s, |f|)
  }

  // ---------------------------------------------------------------- listing filters

  /** A query-string parameter that is present and non-empty (`if status:`). */
  predicate Informado(p: Option<string>) {
    p.Some? && p.value != ""
  }

  /** A `data_inicio`/`data_fim` parameter: absent or empty, rejected by
      `strptime(v, '%Y-%m-%d')`, or the instant of midnight of that day. */
  datatype DataArg = SemData | DataInvalida | Dia(instante: nat)

  /** `status` filter: applied only when it names a status. */
  predicate PassaStatus(f: Option<string>, q: CotacaoRow) {
    Informado(f) && StatusFromValue(f.value).Some? ==> q.status == StatusFromValue(f.value).value
  }

  /** `empresa_transporte` filter: applied only when it names a mode. */
  predicate PassaEmpresa(f: Option<string>, q: CotacaoRow) {
    Informado(f) && EmpresaFromValue(f.value).Some? ==> q.empresaTransporte == EmpresaFromValue(f.value).value
  }

  /** An `ILIKE '%f%'` filter on a text column. */
  predicate PassaTexto(f: Option<string>, coluna: string) {
    Informado(f) ==> ContainsIgnoreCase(coluna, f.value)
  }

  /** `data_solicitacao >= data_inicio`, skipped when the date is absent or invalid. */
  predicate PassaDesde(d: DataArg, q: CotacaoRow) {
    d.Dia? ==> q.dataSolicitacao >= d.instante
  }

  /** `data_solicitacao <= data_fim` (midnight of that day), skipped likewise. */
  predicate PassaAte(d: DataArg, q: CotacaoRow) {
    d.Dia? ==> q.dataSolicitacao <= d.instante
  }
}
