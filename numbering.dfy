/** Quote numbers `COT-<day>-<seq>` (`Cotacao.gerar_numero_cotacao`):
    take the greatest existing number of the day in text order, read the
    text after its last '-' as an integer, add one and pad to 4 digits.

    Text order agrees with numeric order only between sequence parts of
    equal length, so once the day reaches 10000 the greatest number in text
    order is stuck at 9999 and the rule hands out 10000 again. The corrected
    rule takes the numeric maximum instead. */
module QuoteNumbering {
  import opened Common

  /** `f'COT-{hoje}-'`, the day's prefix (the LIKE pattern without its `%`). */
  function Prefixo(hoje: string): string {
    "COT-" + hoje + "-"
  }

  // ---------------------------------------------------------------- text order

  /** Strict code-point lexicographic order, as ORDER BY compares text. */
  predicate LexMenor(a: string, b: string)
    decreases |a|
  {
    if a == [] then b != []
    else b != [] && (a[0] < b[0] || (a[0] == b[0] && LexMenor(a[1..], b[1..])))
  }

  lemma {:induction false} LexIrreflexivo(a: string)
    ensures !LexMenor(a, a)
    decreases |a|
  {
    if a != [] {
      LexIrreflexivo(a[1..]);
    }
  }

  lemma {:induction false} LexTransitivo(a: string, b: string, c: string)
    requires LexMenor(a, b) && LexMenor(b, c)
    ensures LexMenor(a, c)
    decreases |a|
  {
    if a != [] && a[0] == b[0] && b[0] == c[0] {
      LexTransitivo(a[1..], b[1..], c[1..]);
    }
  }

  /** A common prefix does not change the comparison. */
  lemma {:induction false} LexPrefixoComum(p: string, a: string, b: string)
    ensures LexMenor(p + a, p + b) <==> LexMenor(a, b)
    decreases |p|
  {
    if p != [] {
      assert (p + a)[1..] == p[1..] + a;
      assert (p + b)[1..] == p[1..] + b;
      LexPrefixoComum(p[1..], a, b);
    } else {
      assert p + a == a && p + b == b;
    }
  }

  function Pow10(k: nat): (r: nat)
    ensures r >= 1
  {
    if k == 0 then 1 else 10 * Pow10(k - 1)
  }

  /** A digit string of length k is below 10^k. */
  lemma {:induction false} DecimalAbaixoPotencia(s: string)
    requires AllDigits(s)
    ensures DecimalValue(s) < Pow10(|s|)
    decreases |s|
  {
    if s != [] {
      DecimalAbaixoPotencia(s[..|s| - 1]);
    }
  }

  /** Reading a digit string from its first digit. */
  lemma {:induction false} DecimalPelaFrente(s: string)
    requires AllDigits(s) && s != []
    ensures DecimalValue(s) == DigitValue(s[0]) * Pow10(|s| - 1) + DecimalValue(s[1..])
    decreases |s|
  {
    if |s| > 1 {
      var i := s[..|s| - 1];
      DecimalPelaFrente(i);
      assert i[1..] == s[1..][..|s| - 2];
      assert s[1..][|s| - 2] == s[|s| - 1];
    } else {
      assert s[1..] == [];
    }
  }

  /** Between digit strings of equal length, text order is numeric order. */
  lemma {:induction false} LexNumerico(s: string, t: string)
    requires AllDigits(s) && AllDigits(t) && |s| == |t|
    ensures LexMenor(s, t) <==> DecimalValue(s) < DecimalValue(t)
    decreases |s|
  {
    if s != [] {
      DecimalPelaFrente(s);
      DecimalPelaFrente(t);
      DecimalAbaixoPotencia(s[1..]);
      DecimalAbaixoPotencia(t[1..]);
      LexNumerico(s[1..], t[1..]);
      ComparaPelaFrente(DigitValue(s[0]), DigitValue(t[0]), Pow10(|s| - 1),
                        DecimalValue(s[1..]), DecimalValue(t[1..]));
    }
  }

  /** Two numbers written with a leading digit and a remainder below the same
      place value compare by leading digit first. */
  lemma ComparaPelaFrente(a: nat, b: nat, p: nat, x: nat, y: nat)
    requires x < p && y < p
    ensures a * p + x < b * p + y <==> a < b || (a == b && x < y)
  {
    if a < b {
      assert (a + 1) * p <= b * p by { MultiplicacaoMonotona(a + 1, b, p); }
    } else if b < a {
      assert (b + 1) * p <= a * p by { MultiplicacaoMonotona(b + 1, a, p); }
    }
  }

  // ---------------------------------------------------------------- query

  /** `filter(numero_cotacao.like(prefix + '%'))`. */
  function DoDia(ns: seq<string>, p: string): (r: seq<string>)
    ensures forall x :: x in r <==> x in ns && IsPrefix(p, x)
    decreases |ns|
  {
    if ns == [] then []
    else if IsPrefix(p, ns[0]) then [ns[0]] + DoDia(ns[1..], p)
    else DoDia(ns[1..], p)
  }

  /** `order_by(numero_cotacao.desc()).first()`: the text-greatest element. */
  function MaiorLex(ns: seq<string>): (r: Option<string>)
    ensures r.None? <==> ns == []
    ensures r.Some? ==> r.value in ns && forall x :: x in ns ==> !LexMenor(r.value, x)
    decreases |ns|
  {
    if ns == [] then None
    else
      var resto := MaiorLex(ns[1..]);
      if resto.None? then
        LexIrreflexivo(ns[0]);
        Some(ns[0])
      else if LexMenor(resto.value, ns[0]) then
        LexIrreflexivo(ns[0]);
        assert forall x :: x in ns[1..] ==> !LexMenor(ns[0], x) by {
          forall x | x in ns[1..] && LexMenor(ns[0], x)
            ensures false
          {
            LexTransitivo(resto.value, ns[0], x);
          }
        }
        Some(ns[0])
      else
        resto
  }

  // ---------------------------------------------------------------- text helpers

  /** `s.split('-')[-1]`: the text after the last '-', or all of `s`. */
  function UltimoSegmento(s: string): (r: string)
    ensures |r| <= |s| && r == s[|s| - |r|..]
    ensures '-' !in r
    ensures |r| < |s| ==> s[|s| - |r| - 1] == '-'
    decreases |s|
  {
    if s == [] then []
    else if s[|s| - 1] == '-' then []
    else
      var r := UltimoSegmento(s[..|s| - 1]) + [s[|s| - 1]];
      assert r == s[|s| - |r|..];
      r
  }

  /** After a prefix ending in '-', a tail without '-' is the last segment. */
  lemma SegmentoAposPrefixo(p: string, x: string)
    requires p != [] && p[|p| - 1] == '-' && '-' !in x
    ensures UltimoSegmento(p + x) == x
  {
    var s := p + x;
    assert s[|s| - |x|..] == x;
  }

  function Zeros(k: nat): (r: string)
    ensures |r| == k && AllDigits(r)
  {
    seq(k, i => '0')
  }

  /** `f'{n:04d}'`: decimal, left-padded with zeros to at least 4 digits. */
  function Pad4(n: nat): (r: string)
    ensures AllDigits(r) && |r| >= 4
  {
    var d := NatToDecimal(n);
    if |d| < 4 then Zeros(4 - |d|) + d else d
  }

  lemma {:induction false} ZerosAEsquerda(k: nat, s: string)
    requires AllDigits(s)
    ensures AllDigits(Zeros(k) + s) && DecimalValue(Zeros(k) + s) == DecimalValue(s)
    decreases |s|, k
  {
    if s == [] {
      if k > 0 {
        assert (Zeros(k) + s)[..k - 1] == Zeros(k - 1) + s;
        ZerosAEsquerda(k - 1, s);
      }
    } else {
      var z := Zeros(k) + s;
      assert z[..|z| - 1] == Zeros(k) + s[..|s| - 1];
      ZerosAEsquerda(k, s[..|s| - 1]);
    }
  }

  /** The padding changes the text, not the value. */
  lemma ValorPad4(n: nat)
    ensures DecimalValue(Pad4(n)) == n
  {
    var d := NatToDecimal(n);
    DecimalOfNatToDecimal(n);
    if |d| < 4 {
      ZerosAEsquerda(4 - |d|, d);
    }
  }

  lemma {:induction false} TamanhoNatToDecimal(n: nat, k: nat)
    requires n < Pow10(k)
    ensures |NatToDecimal(n)| <= k || (k == 0 && |NatToDecimal(n)| == 1)
    decreases n
  {
    if n >= 10 {
      TamanhoNatToDecimal(n / 10, k - 1);
    }
  }

  /** Below 10000 the padded number has exactly 4 digits. */
  lemma Pad4QuatroDigitos(n: nat)
    requires n < 10000
    ensures |Pad4(n)| == 4
  {
    assert Pow10(4) == 10000;
    TamanhoNatToDecimal(n, 4);
  }

  // ---------------------------------------------------------------- the rule

  /** The sequence part of a number: `int(numero.split('-')[-1])`; None where
      `int()` raises ValueError (an empty or non-digit segment). */
  function ValorSequencial(numero: string): (r: Option<nat>)
    ensures r.Some? <==> UltimoSegmento(numero) != [] && AllDigits(UltimoSegmento(numero))
  {
    var seg := UltimoSegmento(numero);
    if seg != [] && AllDigits(seg) then Some(DecimalValue(seg)) else None
  }

  /** `gerar_numero_cotacao` as written, over the numbers already stored and
      the day `hoje` (YYYYMMDD); None models the ValueError of `int()`. */
  function GerarNumeroCotacao(ns: seq<string>, hoje: string): (r: Option<string>)
    ensures r.Some? ==> IsPrefix(Prefixo(hoje), r.value)
    ensures MaiorLex(DoDia(ns, Prefixo(hoje))).None? ==> r == Some(Prefixo(hoje) + "0001")
  {
    var p := Prefixo(hoje);
    match MaiorLex(DoDia(ns, p))
    case None =>
      assert Pad4(1) == "0001";
      Some(p + Pad4(1))
    case Some(ultimo) =>
      match ValorSequencial(ultimo)
      case None => None
      case Some(v) => Some(p + Pad4(v + 1))
  }

  /** The sequence part of a well-formed number of the day: 4 digits, below 9999. */
  predicate SufixoBemFormado(p: string, x: string) {
    IsPrefix(p, x) && |x| - |p| == 4 && AllDigits(x[|p|..]) && DecimalValue(x[|p|..]) <= 9998
  }

  /** While every number of the day has a 4-digit sequence part below 9999,
      the rule yields a number not yet used, whose sequence part is one more
      than the greatest sequence of the day (0 when the day has none) and
      again has 4 digits. */
  lemma NumeroInedito(ns: seq<string>, hoje: string)
    requires '-' !in hoje
    requires forall x :: x in ns && IsPrefix(Prefixo(hoje), x) ==> SufixoBemFormado(Prefixo(hoje), x)
    ensures GerarNumeroCotacao(ns, hoje).Some?
    ensures GerarNumeroCotacao(ns, hoje).value !in ns
    ensures var r := GerarNumeroCotacao(ns, hoje).value;
            |r| == |Prefixo(hoje)| + 4 && AllDigits(r[|Prefixo(hoje)|..])
            && 1 <= DecimalValue(r[|Prefixo(hoje)|..]) <= 9999
    ensures GerarNumeroCotacao(ns, hoje) == Some(Prefixo(hoje) + Pad4(MaiorValor(DoDia(ns, Prefixo(hoje))) + 1))
    ensures DecimalValue(GerarNumeroCotacao(ns, hoje).value[|Prefixo(hoje)|..]) == MaiorValor(DoDia(ns, Prefixo(hoje))) + 1
  {
    var p := Prefixo(hoje);
    var dia := DoDia(ns, p);
    assert p[|p| - 1] == '-';
    CorrigidoConcordaAbaixoDe9999(ns, hoje);
    NumeroCorrigidoInedito(ns, hoje);
    forall x | x in dia && ValorSequencial(x).Some? ensures ValorSequencial(x).value <= 9998 {
      var v := SucessorBemFormado(p, x);
    }
    MaiorValorLimitado(dia, 9998);
    var m := MaiorValor(dia);
    ValorPad4(m + 1);
    Pad4QuatroDigitos(m + 1);
    assert (p + Pad4(m + 1))[|p|..] == Pad4(m + 1);
  }

  /** For a well-formed number `u` of the day with sequence part `v`, the rule's
      successor `p + Pad4(v + 1)` parses back, has 4 digits and sorts after `u`. */
  lemma SucessorBemFormado(p: string, u: string) returns (v: nat)
    requires p != [] && p[|p| - 1] == '-' && SufixoBemFormado(p, u)
    ensures v == DecimalValue(u[|p|..]) && ValorSequencial(u) == Some(v)
    ensures var r := p + Pad4(v + 1);
            LexMenor(u, r) && |r| == |p| + 4 && r[|p|..] == Pad4(v + 1)
            && AllDigits(r[|p|..]) && DecimalValue(r[|p|..]) == v + 1
  {
    var t := u[|p|..];
    assert u == p + t;
    assert '-' !in t by {
      forall i | 0 <= i < |t| ensures t[i] != '-' { assert IsDigit(t[i]); }
    }
    SegmentoAposPrefixo(p, t);
    v := DecimalValue(t);
    Pad4QuatroDigitos(v + 1);
    ValorPad4(v + 1);
    var r := p + Pad4(v + 1);
    assert r[|p|..] == Pad4(v + 1);
    LexPrefixoComum(p, t, Pad4(v + 1));
    LexNumerico(t, Pad4(v + 1));
  }

  /** The collision: once the day holds 9999 and 10000, the text-greatest is
      still 9999, and the rule hands out 10000 a second time. */
  lemma NumeroRepetidoApos9999(hoje: string)
    requires '-' !in hoje
    ensures var p := Prefixo(hoje);
            GerarNumeroCotacao([p + "9999", p + "10000"], hoje) == Some(p + "10000")
  {
    var p := Prefixo(hoje);
    var ns := [p + "9999", p + "10000"];
    assert IsPrefix(p, p + "9999") && IsPrefix(p, p + "10000");
    assert DoDia(ns, p) == ns by {
      assert DoDia(ns[1..], p) == [p + "10000"] by { assert ns[1..][1..] == []; }
    }
    LexPrefixoComum(p, "10000", "9999");
    assert LexMenor("10000", "9999");
    assert MaiorLex(ns[1..]) == Some(p + "10000") by { assert ns[1..][1..] == []; }
    assert MaiorLex(ns) == Some(p + "9999");
    assert p[|p| - 1] == '-';
    SegmentoAposPrefixo(p, "9999");
    Valores9999E10000();
    assert ValorSequencial(p + "9999") == Some(9999);
    assert Pad4(10000) == "10000";
  }

  /** The two sequence texts of the collision and their values. */
  lemma Valores9999E10000()
    ensures DecimalValue("9999") == 9999 && NatToDecimal(10000) == "10000"
  {
    assert "9999"[..3] == "999" && "999"[..2] == "99" && "99"[..1] == "9" && "9"[..0] == "";
  }

  // ---------------------------------------------------------------- corrected rule

  /** The greatest sequence part among the day's numbers (0 when none parses). */
  function MaiorValor(dia: seq<string>): (m: nat)
    ensures forall x :: x in dia && ValorSequencial(x).Some? ==> ValorSequencial(x).value <= m
    decreases |dia|
  {
    if dia == [] then 0
    else
      var resto := MaiorValor(dia[1..]);
      match ValorSequencial(dia[0])
      case Some(v) => if v > resto then v else resto
      case None => resto
  }

  /** The corrected rule: one more than the numeric maximum of the day. */
  function GerarNumeroCorrigido(ns: seq<string>, hoje: string): (r: string)
    ensures IsPrefix(Prefixo(hoje), r)
  {
    Prefixo(hoje) + Pad4(MaiorValor(DoDia(ns, Prefixo(hoje))) + 1)
  }

  /** The corrected rule never repeats a number, whatever is stored. */
  lemma NumeroCorrigidoInedito(ns: seq<string>, hoje: string)
    ensures GerarNumeroCorrigido(ns, hoje) !in ns
  {
    var p := Prefixo(hoje);
    var m := MaiorValor(DoDia(ns, p));
    var d := Pad4(m + 1);
    var r := p + d;
    assert '-' !in d by {
      forall i | 0 <= i < |d| ensures d[i] != '-' { assert IsDigit(d[i]); }
    }
    assert p[|p| - 1] == '-';
    SegmentoAposPrefixo(p, d);
    ValorPad4(m + 1);
    assert ValorSequencial(r) == Some(m + 1);
    assert r !in DoDia(ns, p);
  }

  lemma {:induction false} MaiorValorLimitado(dia: seq<string>, limite: nat)
    requires forall x :: x in dia && ValorSequencial(x).Some? ==> ValorSequencial(x).value <= limite
    ensures MaiorValor(dia) <= limite
    decreases |dia|
  {
    if dia != [] {
      MaiorValorLimitado(dia[1..], limite);
    }
  }

  /** A well-formed number that does not sort after `u` has no greater sequence part. */
  lemma NaoPosteriorNaoMaior(p: string, u: string, x: string)
    requires p != [] && p[|p| - 1] == '-' && SufixoBemFormado(p, u) && SufixoBemFormado(p, x)
    requires !LexMenor(u, x)
    ensures ValorSequencial(x).Some? && ValorSequencial(u).Some?
    ensures ValorSequencial(x).value <= ValorSequencial(u).value
  {
    var v := SucessorBemFormado(p, u);
    var w := SucessorBemFormado(p, x);
    assert x == p + x[|p|..] && u == p + u[|p|..];
    LexPrefixoComum(p, u[|p|..], x[|p|..]);
    LexNumerico(u[|p|..], x[|p|..]);
  }

  /** Over well-formed numbers of one day, the sequence part of the
      text-greatest is the numeric maximum. */
  lemma MaiorLexEhMaiorValor(p: string, dia: seq<string>)
    requires p != [] && p[|p| - 1] == '-'
    requires forall x :: x in dia ==> SufixoBemFormado(p, x)
    ensures MaiorLex(dia).None? ==> MaiorValor(dia) == 0
    ensures MaiorLex(dia).Some? ==> ValorSequencial(MaiorLex(dia).value) == Some(MaiorValor(dia))
  {
    match MaiorLex(dia)
    case None =>
      MaiorValorLimitado(dia, 0);
    case Some(u) =>
      var v := SucessorBemFormado(p, u);
      forall x | x in dia && ValorSequencial(x).Some?
        ensures ValorSequencial(x).value <= v
      {
        NaoPosteriorNaoMaior(p, u, x);
      }
      assert MaiorValor(dia) <= v by { MaiorValorLimitado(dia, v); }
      assert u in dia;
      assert ValorSequencial(u) == Some(v);
      assert MaiorValor(dia) >= v;
  }

  /** Where the source is right (every number of the day well-formed and
      below 9999) the corrected rule yields the same number. */
  lemma CorrigidoConcordaAbaixoDe9999(ns: seq<string>, hoje: string)
    requires '-' !in hoje
    requires forall x :: x in ns && IsPrefix(Prefixo(hoje), x) ==> SufixoBemFormado(Prefixo(hoje), x)
    ensures GerarNumeroCotacao(ns, hoje) == Some(GerarNumeroCorrigido(ns, hoje))
  {
    var p := Prefixo(hoje);
    assert p[|p| - 1] == '-';
    MaiorLexEhMaiorValor(p, DoDia(ns, p));
  }
}
