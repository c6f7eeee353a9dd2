/** The two request validators of the quote routes: the CNPJ check-digit
    test of the Receita Federal (two modulo-11 check digits over the first
    12 and 13 digits) and the 8-digit CEP format test. Both look only at
    the ASCII digits of their input. */
module Validators {
  import opened Common

  /** Weights of the first check digit, over digits 1..12. */
  const PesosPrimeiroDigito: seq<nat> := [5, 4, 3, 2, 9, 8, 7, 6, 5, 4, 3, 2]

  /** Weights of the second check digit, over digits 1..13. */
  const PesosSegundoDigito: seq<nat> := [6, 5, 4, 3, 2, 9, 8, 7, 6, 5, 4, 3, 2]

  /** The numeric values of a digit string. */
  function Valores(s: string): (r: seq<nat>)
    requires AllDigits(s)
    ensures |r| == |s|
    ensures forall i :: 0 <= i < |s| ==> r[i] == DigitValue(s[i])
  {
    if s == [] then [] else [DigitValue(s[0])] + Valores(s[1..])
  }

  /** Weighted sum of digit values. */
  function SomaPonderada(ds: seq<nat>, ws: seq<nat>): nat
    requires |ds| == |ws|
    decreases |ds|
  {
    if ds == [] then 0
    else SomaPonderada(ds[..|ds| - 1], ws[..|ws| - 1]) + ds[|ds| - 1] * ws[|ws| - 1]
  }

  /** The check digit for a weighted sum: 0 when the remainder modulo 11 is
      below 2, otherwise 11 minus the remainder, which brings the sum plus
      the digit to a multiple of 11. */
  function DigitoVerificador(soma: nat): (d: nat)
    ensures d <= 9
    ensures d == 0 <==> soma % 11 < 2
    ensures d != 0 ==> (soma + d) % 11 == 0
  {
    var resto := soma % 11;
    if resto < 2 then 0 else 11 - resto
  }

  /** Every character of `s` equals the first (`cnpj == cnpj[0] * 14`). */
  predicate TodosIguais(s: string) {
    forall i :: 0 <= i < |s| ==> s[i] == s[0]
  }

  /** Reference definition of a valid CNPJ: 14 digits once non-digits are
      dropped, not all the same digit, and digits 13 and 14 equal the two
      check digits computed with the fixed weight tables. */
  predicate CnpjValido(s: string) {
    var d := DigitsOnly(s);
    && |d| == 14
    && !TodosIguais(d)
    && DigitValue(d[12]) == DigitoVerificador(SomaPonderada(Valores(d[..12]), PesosPrimeiroDigito))
    && DigitValue(d[13]) == DigitoVerificador(SomaPonderada(Valores(d[..13]), PesosSegundoDigito))
  }

  /** The weight update of the source loops: step down by one, wrapping
      from below 2 back to 9. */
  function ProximoPeso(peso: int): int {
    if peso - 1 < 2 then 9 else peso - 1
  }

  lemma PesosPrimeiroSeguemRegra(i: nat)
    requires i + 1 < |PesosPrimeiroDigito|
    ensures PesosPrimeiroDigito[i + 1] == ProximoPeso(PesosPrimeiroDigito[i])
  {
  }

  lemma PesosSegundoSeguemRegra(i: nat)
    requires i + 1 < |PesosSegundoDigito|
    ensures PesosSegundoDigito[i + 1] == ProximoPeso(PesosSegundoDigito[i])
  {
  }

  /** One more digit extends the weighted sum of a prefix by one term. */
  lemma SomaPrefixo(ds: seq<nat>, ws: seq<nat>, i: nat)
    requires |ds| == |ws| && i < |ds|
    ensures SomaPonderada(ds[..i + 1], ws[..i + 1]) == SomaPonderada(ds[..i], ws[..i]) + ds[i] * ws[i]
  {
    assert ds[..i + 1][..i] == ds[..i];
    assert ws[..i + 1][..i] == ws[..i];
  }

  /** The weight loop of `validar_cnpj`: adds up the first `n` digits of `c`,
      starting from weight `peso` and updating it by `ProximoPeso`. */
  method SomarComPesos(c: string, n: nat, peso0: int, ghost pesos: seq<nat>) returns (soma: int)
    requires AllDigits(c) && n <= |c| && |pesos| == n
    requires n > 0 ==> pesos[0] == peso0
    requires forall i :: 0 <= i < n - 1 ==> pesos[i + 1] == ProximoPeso(pesos[i])
    ensures soma == SomaPonderada(Valores(c[..n]), pesos)
  {
    ghost var v := Valores(c[..n]);
    soma := 0;
    var peso := peso0;
    var i := 0;
    while i < n
      invariant 0 <= i <= n
      invariant soma == SomaPonderada(v[..i], pesos[..i])
      invariant i < n ==> peso == pesos[i]
    {
      SomaPrefixo(v, pesos, i);
      soma := soma + DigitValue(c[i]) * peso;
      peso := peso - 1;
      if peso < 2 {
        peso := 9;
      }
      i := i + 1;
    }
    assert v[..n] == v && pesos[..n] == pesos;
  }

  /** `validar_cnpj`, proved to compute the reference definition. */
  method ValidarCnpj(cnpj: string) returns (ok: bool)
    ensures ok == CnpjValido(cnpj)
  {
    var c := DigitsOnly(cnpj);
    if |c| != 14 {
      return false;
    }
    if forall i | 0 <= i < 14 :: c[i] == c[0] {
      return false;
    }
    forall i | 0 <= i < 11 ensures PesosPrimeiroDigito[i + 1] == ProximoPeso(PesosPrimeiroDigito[i]) {
      PesosPrimeiroSeguemRegra(i);
    }
    forall i | 0 <= i < 12 ensures PesosSegundoDigito[i + 1] == ProximoPeso(PesosSegundoDigito[i]) {
      PesosSegundoSeguemRegra(i);
    }
    var soma := SomarComPesos(c, 12, 5, PesosPrimeiroDigito);
    var resto := soma % 11;
    var digito1 := if resto < 2 then 0 else 11 - resto;
    soma := SomarComPesos(c, 13, 6, PesosSegundoDigito);
    resto := soma % 11;
    var digito2 := if resto < 2 then 0 else 11 - resto;
    ok := c[12] == DigitChar(digito1) && c[13] == DigitChar(digito2);
  }

  /** `validar_cep`: 8 digits once non-digits are dropped. */
  function ValidarCep(cep: string): (ok: bool)
    ensures ok <==> |DigitsOnly(cep)| == 8
  {
    var c := DigitsOnly(cep);
    |c| == 8 && |c| > 0 && AllDigits(c)
  }

  /** Both validators ignore every non-digit character. */
  lemma ValidadoresIgnoramNaoDigitos(s: string)
    ensures CnpjValido(s) == CnpjValido(DigitsOnly(s))
    ensures ValidarCep(s) == ValidarCep(DigitsOnly(s))
  {
    DigitsOnlyIdempotent(s);
  }
}
