/**
 * Model of ValidacaoService: the CPF and CNPJ check-digit algorithms and the
 * display formatting of both documents.
 *
 * The checksums are stated twice: as predicates over the digit sequence
 * (CpfValido, CnpjValido) and as the source's accumulating loops (ValidarCpf,
 * CalcularDigito, ValidarCnpj), each proved equal to its predicate.
 */
module Validacao {

  // ---------------------------------------------------------------------------
  // Digit strings
  // ---------------------------------------------------------------------------

  /** `\d` in a JavaScript regular expression: the ASCII digits only. */
  predicate EhDigito(c: char) {
    '0' <= c <= '9'
  }

  predicate SoDigitos(s: string) {
    forall i :: 0 <= i < |s| ==> EhDigito(s[i])
  }

  /** `s.replace(/[^\d]+/g, '')`: the digits of `s`, in their order. */
  function Limpar(s: string): (r: string)
    ensures |r| <= |s|
    ensures SoDigitos(r)
  {
    if s == [] then []
    else (if EhDigito(s[0]) then [s[0]] else []) + Limpar(s[1..])
  }

  /** `Number(c)` for a digit character. */
  function ValorDigito(c: char): int {
    c as int - '0' as int
  }

  /** `s.split('').map(Number)`. */
  function Valores(s: string): seq<int> {
    seq(|s|, i requires 0 <= i < |s| => ValorDigito(s[i]))
  }

  /** `/^(\d)\1{n-1}$/.test(s)`: exactly n copies of one digit. */
  predicate Repetido(s: string, n: nat) {
    |s| == n && n > 0 && EhDigito(s[0]) && forall i :: 0 <= i < |s| ==> s[i] == s[0]
  }

  /** JavaScript's `%`: the remainder takes the sign of the dividend. */
  function RestoJs(a: int, m: int): (r: int)
    requires m > 0
    ensures -m < r < m
    ensures a >= 0 ==> r == a % m
  {
    if a >= 0 then a % m else -((-a) % m)
  }

  // ---------------------------------------------------------------------------
  // CPF
  // ---------------------------------------------------------------------------

  /** Σ_{i<n} d[i] * (topo - i), accumulated from the left as the loops do. */
  function SomaCpf(d: seq<int>, n: nat, topo: int): int
    requires n <= |d|
  {
    if n == 0 then 0 else SomaCpf(d, n - 1, topo) + d[n - 1] * (topo - (n - 1))
  }

  /** `11 - (soma % 11)`, replaced by 0 when it is 10 or more. */
  function DigitoCpf(soma: int): (dv: int)
    ensures 0 <= dv <= 9
  {
    var r := 11 - RestoJs(soma, 11);
    if r >= 10 then 0 else r
  }

  /** What `validarCPF` answers for `cpf`. */
  predicate CpfValido(cpf: string) {
    var limpo := Limpar(cpf);
    |limpo| == 11 && !Repetido(limpo, 11) &&
    (var d := Valores(limpo);
     DigitoCpf(SomaCpf(d, 9, 10)) == d[9] && DigitoCpf(SomaCpf(d, 10, 11)) == d[10])
  }

  method ValidarCpf(cpf: string) returns (valido: bool)
    ensures valido == CpfValido(cpf)
  {
    var cpfLimpo := Limpar(cpf);
    if |cpfLimpo| != 11 || Repetido(cpfLimpo, 11) {
      return false;
    }
    var cpfArray := Valores(cpfLimpo);

    var soma := 0;
    for i := 0 to 9
      invariant soma == SomaCpf(cpfArray, i, 10)
    {
      soma := soma + cpfArray[i] * (10 - i);
    }
    var primeiroDigito := 11 - RestoJs(soma, 11);
    if primeiroDigito >= 10 {
      primeiroDigito := 0;
    }

    soma := 0;
    for i := 0 to 10
      invariant soma == SomaCpf(cpfArray, i, 11)
    {
      soma := soma + cpfArray[i] * (11 - i);
    }
    var segundoDigito := 11 - RestoJs(soma, 11);
    if segundoDigito >= 10 {
      segundoDigito := 0;
    }

    return primeiroDigito == cpfArray[9] && segundoDigito == cpfArray[10];
  }

  // ---------------------------------------------------------------------------
  // CNPJ
  // ---------------------------------------------------------------------------

  /** `pos--` followed by `if (pos < 2) pos = 9`. */
  function ProximoPeso(pos: int): int {
    if pos - 1 < 2 then 9 else pos - 1
  }

  /** The value of `pos` when `calcularDigito` reaches index i of a base of length n. */
  function Peso(n: int, i: nat): int {
    if i == 0 then n - 7 else ProximoPeso(Peso(n, i - 1))
  }

  /** The `soma` of `calcularDigito` after its first k iterations. */
  function SomaCnpj(base: seq<int>, k: nat): int
    requires k <= |base|
  {
    if k == 0 then 0 else SomaCnpj(base, k - 1) + base[k - 1] * Peso(|base|, k - 1)
  }

  /** What `calcularDigito(base)` returns. */
  function DigitoCnpj(base: seq<int>): (dv: int)
    ensures 0 <= dv <= 9
  {
    var resultado := RestoJs(SomaCnpj(base, |base|), 11);
    if resultado < 2 then 0 else 11 - resultado
  }

  /** What `validarCNPJ` answers for `cnpj`. */
  predicate CnpjValido(cnpj: string) {
    var limpo := Limpar(cnpj);
    |limpo| == 14 && !Repetido(limpo, 14) &&
    (var d := Valores(limpo);
     var digito1 := DigitoCnpj(d[..12]);
     digito1 == d[12] && DigitoCnpj(d[..12] + [digito1]) == d[13])
  }

  method CalcularDigito(base: seq<int>) returns (digito: int)
    ensures digito == DigitoCnpj(base)
    ensures 0 <= digito <= 9
  {
    var soma := 0;
    var pos := |base| - 7;
    for i := 0 to |base|
      invariant soma == SomaCnpj(base, i)
      invariant pos == Peso(|base|, i)
    {
      soma := soma + base[i] * pos;
      pos := pos - 1;
      if pos < 2 {
        pos := 9;
      }
    }
    var resultado := RestoJs(soma, 11);
    digito := if resultado < 2 then 0 else 11 - resultado;
  }

  method ValidarCnpj(cnpj: string) returns (valido: bool)
    ensures valido == CnpjValido(cnpj)
  {
    var cnpjLimpo := Limpar(cnpj);
    if |cnpjLimpo| != 14 || Repetido(cnpjLimpo, 14) {
      return false;
    }
    var cnpjArray := Valores(cnpjLimpo);
    var base1 := cnpjArray[..12];
    var digito1 := CalcularDigito(base1);
    var base2 := base1 + [digito1];
    var digito2 := CalcularDigito(base2);
    return digito1 == cnpjArray[12] && digito2 == cnpjArray[13];
  }

  // ---------------------------------------------------------------------------
  // Dispatch and formatting
  // ---------------------------------------------------------------------------

  /** What `validarDocumento` answers: the CPF rule for "PF", the CNPJ rule for anything else. */
  predicate DocumentoValido(documento: string, tipo: string) {
    if tipo == "PF" then CpfValido(documento) else CnpjValido(documento)
  }

  method ValidarDocumento(documento: string, tipo: string) returns (valido: bool)
    ensures tipo == "PF" ==> valido == CpfValido(documento)
    ensures tipo != "PF" ==> valido == CnpjValido(documento)
  {
    if tipo == "PF" {
      valido := ValidarCpf(documento);
    } else {
      valido := ValidarCnpj(documento);
    }
  }

  /** The replacement `$1.$2.$3-$4` applied to the leftmost match of `(\d{3})(\d{3})(\d{3})(\d{2})`. */
  function MascaraCpf(n: string): string
    requires |n| >= 11
  {
    n[..3] + "." + n[3..6] + "." + n[6..9] + "-" + n[9..11] + n[11..]
  }

  /** The replacement `$1.$2.$3/$4-$5` applied to the leftmost match of `(\d{2})(\d{3})(\d{3})(\d{4})(\d{2})`. */
  function MascaraCnpj(n: string): string
    requires |n| >= 14
  {
    n[..2] + "." + n[2..5] + "." + n[5..8] + "/" + n[8..12] + "-" + n[12..14] + n[14..]
  }

  /** Every character is a digit or one of the separators the masks insert. */
  predicate DigitosOuSeparadores(s: string) {
    forall i :: 0 <= i < |s| ==> EhDigito(s[i]) || s[i] in "./-"
  }

  /** The masks insert only separators; FormatarDocumento calls these to establish its own ensures. */
  lemma MascaraCpfCaracteres(n: string)
    requires SoDigitos(n) && |n| >= 11
    ensures DigitosOuSeparadores(MascaraCpf(n))
  {
  }

  lemma MascaraCnpjCaracteres(n: string)
    requires SoDigitos(n) && |n| >= 14
    ensures DigitosOuSeparadores(MascaraCnpj(n))
  {
  }

  /**
   * `formatarDocumento`: a single (non-global) replace on the digit string.
   * On a string of digits the pattern matches at index 0 as soon as there are
   * enough digits, and digits beyond the pattern stay after it; with too few
   * digits nothing matches and the digits come back unchanged.
   */
  function FormatarDocumento(documento: string, tipo: string): (r: string)
    ensures |Limpar(documento)| <= |r| <= |Limpar(documento)| + 4
    ensures DigitosOuSeparadores(r)
  {
    var numeros := Limpar(documento);
    if tipo == "PF" then
      if |numeros| >= 11 then MascaraCpfCaracteres(numeros); MascaraCpf(numeros) else numeros
    else
      if |numeros| >= 14 then MascaraCnpjCaracteres(numeros); MascaraCnpj(numeros) else numeros
  }
}
