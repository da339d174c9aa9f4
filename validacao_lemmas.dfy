/**
 * Properties of the document validation model: only the digits of the input
 * matter, formatting keeps the digits and the verdict, the CNPJ weights are the
 * official cycle 2..9 counted from the right, and a document is valid exactly
 * when its two last digits are the check digits of the others.
 */
module ValidacaoLemas {
  import opened Validacao

  // ---------------------------------------------------------------------------
  // Stripping non-digits
  // ---------------------------------------------------------------------------

  lemma {:induction false} LimparConcat(a: string, b: string)
    ensures Limpar(a + b) == Limpar(a) + Limpar(b)
  {
    if a == [] {
      assert a + b == b;
    } else {
      var c := a + b;
      var cabeca := if EhDigito(a[0]) then [a[0]] else [];
      assert c[0] == a[0] && c[1..] == a[1..] + b;
      LimparConcat(a[1..], b);
      assert Limpar(c) == cabeca + Limpar(c[1..]);
      assert Limpar(a) == cabeca + Limpar(a[1..]);
    }
  }

  lemma {:induction false} LimparDigitos(s: string)
    requires SoDigitos(s)
    ensures Limpar(s) == s
  {
    if s != [] {
      LimparDigitos(s[1..]);
    }
  }

  /** Inserting a non-digit anywhere changes neither verdict nor the formatted text. */
  lemma SoDigitosImportam(a: string, c: char, b: string, tipo: string)
    requires !EhDigito(c)
    ensures Limpar(a + [c] + b) == Limpar(a + b)
    ensures CpfValido(a + [c] + b) == CpfValido(a + b)
    ensures CnpjValido(a + [c] + b) == CnpjValido(a + b)
    ensures DocumentoValido(a + [c] + b, tipo) == DocumentoValido(a + b, tipo)
    ensures FormatarDocumento(a + [c] + b, tipo) == FormatarDocumento(a + b, tipo)
  {
    LimparIgnoraPontuacao(a, c, b);
  }

  lemma LimparIgnoraPontuacao(a: string, c: char, b: string)
    requires !EhDigito(c)
    ensures Limpar(a + [c] + b) == Limpar(a + b)
  {
    LimparConcat(a + [c], b);
    LimparMaisPontuacao(a, c);
    LimparConcat(a, b);
  }

  // ---------------------------------------------------------------------------
  // Formatting
  // ---------------------------------------------------------------------------

  lemma LimparPontuacao(c: char)
    requires !EhDigito(c)
    ensures Limpar([c]) == []
  {
    assert [c][1..] == [];
  }

  lemma LimparMaisDigitos(x: string, y: string)
    requires SoDigitos(y)
    ensures Limpar(x + y) == Limpar(x) + y
  {
    LimparConcat(x, y);
    LimparDigitos(y);
  }

  lemma LimparMaisPontuacao(x: string, c: char)
    requires !EhDigito(c)
    ensures Limpar(x + [c]) == Limpar(x)
  {
    LimparConcat(x, [c]);
    LimparPontuacao(c);
  }

  lemma LimparMascaraCpf(n: string)
    requires SoDigitos(n) && |n| >= 11
    ensures Limpar(MascaraCpf(n)) == n
  {
    var a, b, c, d, e := n[..3], n[3..6], n[6..9], n[9..11], n[11..];
    LimparDigitos(a);
    LimparMaisPontuacao(a, '.');
    LimparMaisDigitos(a + ".", b);
    LimparMaisPontuacao(a + "." + b, '.');
    LimparMaisDigitos(a + "." + b + ".", c);
    LimparMaisPontuacao(a + "." + b + "." + c, '-');
    LimparMaisDigitos(a + "." + b + "." + c + "-", d);
    LimparMaisDigitos(a + "." + b + "." + c + "-" + d, e);
    assert n == a + b + c + d + e;
  }

  lemma LimparMascaraCnpj(n: string)
    requires SoDigitos(n) && |n| >= 14
    ensures Limpar(MascaraCnpj(n)) == n
  {
    var a, b, c, d, e, f := n[..2], n[2..5], n[5..8], n[8..12], n[12..14], n[14..];
    LimparDigitos(a);
    LimparMaisPontuacao(a, '.');
    LimparMaisDigitos(a + ".", b);
    LimparMaisPontuacao(a + "." + b, '.');
    LimparMaisDigitos(a + "." + b + ".", c);
    LimparMaisPontuacao(a + "." + b + "." + c, '/');
    LimparMaisDigitos(a + "." + b + "." + c + "/", d);
    LimparMaisPontuacao(a + "." + b + "." + c + "/" + d, '-');
    LimparMaisDigitos(a + "." + b + "." + c + "/" + d + "-", e);
    LimparMaisDigitos(a + "." + b + "." + c + "/" + d + "-" + e, f);
    assert n == a + b + c + d + e + f;
  }

  /** Stripping the punctuation from a formatted document gives back its digits. */
  lemma FormatarPreservaDigitos(documento: string, tipo: string)
    ensures Limpar(FormatarDocumento(documento, tipo)) == Limpar(documento)
  {
    var n := Limpar(documento);
    LimparDigitos(n);
    if tipo == "PF" && |n| >= 11 {
      LimparMascaraCpf(n);
    } else if tipo != "PF" && |n| >= 14 {
      LimparMascaraCnpj(n);
    }
  }

  /** With eleven digits or more, "PF" formatting is `NNN.NNN.NNN-NN` followed by any extra digits. */
  lemma FormatoCpf(documento: string)
    requires |Limpar(documento)| >= 11
    ensures var r := FormatarDocumento(documento, "PF");
      |r| == |Limpar(documento)| + 3 && r[3] == '.' && r[7] == '.' && r[11] == '-' &&
      Limpar(r) == Limpar(documento)
  {
    FormatarPreservaDigitos(documento, "PF");
  }

  /** With fourteen digits or more, other formatting is `NN.NNN.NNN/NNNN-NN` followed by any extra digits. */
  lemma FormatoCnpj(documento: string, tipo: string)
    requires tipo != "PF" && |Limpar(documento)| >= 14
    ensures var r := FormatarDocumento(documento, tipo);
      |r| == |Limpar(documento)| + 4 && r[2] == '.' && r[6] == '.' && r[10] == '/' && r[15] == '-' &&
      Limpar(r) == Limpar(documento)
  {
    assert FormatarDocumento(documento, tipo) == MascaraCnpj(Limpar(documento));
    SeparadoresCnpj(Limpar(documento));
    FormatarPreservaDigitos(documento, tipo);
  }

  lemma SeparadoresCnpj(n: string)
    requires |n| >= 14
    ensures var r := MascaraCnpj(n);
      |r| == |n| + 4 && r[2] == '.' && r[6] == '.' && r[10] == '/' && r[15] == '-'
  {
    var a := n[..2] + "." + n[2..5] + "." + n[5..8] + "/";
    assert |a| == 11 && a[2] == '.' && a[6] == '.' && a[10] == '/';
    var b := a + n[8..12] + "-";
    assert |b| == 16 && b[2] == '.' && b[6] == '.' && b[10] == '/' && b[15] == '-';
    assert MascaraCnpj(n) == b + n[12..14] + n[14..];
  }

  /** With fewer digits than the pattern needs, the replace finds no match: only the digits come back. */
  lemma FormatarSemCorrespondencia(documento: string, tipo: string)
    requires |Limpar(documento)| < (if tipo == "PF" then 11 else 14)
    ensures FormatarDocumento(documento, tipo) == Limpar(documento)
    ensures SoDigitos(FormatarDocumento(documento, tipo))
  {
  }

  /** Formatting an already formatted document changes nothing. */
  lemma FormatarIdempotente(documento: string, tipo: string)
    ensures FormatarDocumento(FormatarDocumento(documento, tipo), tipo) == FormatarDocumento(documento, tipo)
  {
    FormatarPreservaDigitos(documento, tipo);
  }

  /** The formatted document gets the same verdict as the raw one, whatever the type. */
  lemma FormatarPreservaValidade(documento: string, tipo: string, outro: string)
    ensures CpfValido(FormatarDocumento(documento, tipo)) == CpfValido(documento)
    ensures CnpjValido(FormatarDocumento(documento, tipo)) == CnpjValido(documento)
    ensures DocumentoValido(FormatarDocumento(documento, tipo), outro) == DocumentoValido(documento, outro)
  {
    FormatarPreservaDigitos(documento, tipo);
  }

  // ---------------------------------------------------------------------------
  // CNPJ weights
  // ---------------------------------------------------------------------------

  /**
   * For the base lengths that occur (12 and 13, and up to 16 in general) the
   * weights of `calcularDigito` are the cycle 2, 3, ..., 9, 2, 3, ... counted
   * from the rightmost digit of the base towards the left.
   */
  lemma {:induction false} PesoCiclico(n: int, i: nat)
    requires 9 <= n <= 16
    ensures Peso(n, i) == 2 + (n - 1 - i) % 8
    ensures 2 <= Peso(n, i) <= 9
  {
    if i == 0 {
      assert (n - 1) % 8 == n - 9;
    } else {
      PesoCiclico(n, i - 1);
      var k := (n - 1 - (i - 1)) % 8;
      if k == 0 {
        assert (n - 1 - i) % 8 == 7;
      } else {
        assert (n - 1 - i) % 8 == k - 1;
      }
    }
  }

  /** The weight tables of the published CNPJ algorithm. */
  lemma PesosOficiaisCnpj()
    ensures forall i :: 0 <= i < 12 ==> Peso(12, i) == [5, 4, 3, 2, 9, 8, 7, 6, 5, 4, 3, 2][i]
    ensures forall i :: 0 <= i < 13 ==> Peso(13, i) == [6, 5, 4, 3, 2, 9, 8, 7, 6, 5, 4, 3, 2][i]
  {
    forall i | 0 <= i < 12
      ensures Peso(12, i) == [5, 4, 3, 2, 9, 8, 7, 6, 5, 4, 3, 2][i]
    {
      PesoCiclico(12, i);
    }
    forall i | 0 <= i < 13
      ensures Peso(13, i) == [6, 5, 4, 3, 2, 9, 8, 7, 6, 5, 4, 3, 2][i]
    {
      PesoCiclico(13, i);
    }
  }

  // ---------------------------------------------------------------------------
  // Valid documents are bases followed by their check digits
  // ---------------------------------------------------------------------------

  /** A nine-digit base followed by its two CPF check digits, the second computed over the base and the first. */
  function CompletarCpf(base: seq<int>): seq<int>
    requires |base| == 9
  {
    var dv1 := DigitoCpf(SomaCpf(base, 9, 10));
    var base1 := base + [dv1];
    base1 + [DigitoCpf(SomaCpf(base1, 10, 11))]
  }

  /** A twelve-digit base followed by its two CNPJ check digits. */
  function CompletarCnpj(base: seq<int>): seq<int>
    requires |base| == 12
  {
    var base1 := base + [DigitoCnpj(base)];
    base1 + [DigitoCnpj(base1)]
  }

  /** The digit string that spells out a sequence of digit values. */
  function Texto(d: seq<int>): string
    requires forall i :: 0 <= i < |d| ==> 0 <= d[i] <= 9
  {
    seq(|d|, i requires 0 <= i < |d| => ('0' as int + d[i]) as char)
  }

  lemma {:induction false} SomaCpfPrefixo(a: seq<int>, b: seq<int>, n: nat, topo: int)
    requires n <= |a| && n <= |b| && a[..n] == b[..n]
    ensures SomaCpf(a, n, topo) == SomaCpf(b, n, topo)
  {
    if n > 0 {
      assert a[..n - 1] == a[..n][..n - 1] && b[..n - 1] == b[..n][..n - 1];
      assert a[n - 1] == a[..n][n - 1] && b[n - 1] == b[..n][n - 1];
      SomaCpfPrefixo(a, b, n - 1, topo);
    }
  }

  /**
   * `validarCPF` sums the second check digit over the input's own tenth digit;
   * when the first check passes that digit is the computed one, so a CPF is
   * valid exactly when its digits are its first nine followed by their check digits.
   */
  lemma CpfValidoSeCompleto(cpf: string)
    ensures CpfValido(cpf) <==>
      var limpo := Limpar(cpf);
      |limpo| == 11 && !Repetido(limpo, 11) && Valores(limpo) == CompletarCpf(Valores(limpo)[..9])
  {
    var limpo := Limpar(cpf);
    if |limpo| == 11 && !Repetido(limpo, 11) {
      var d := Valores(limpo);
      var base := d[..9];
      SomaCpfPrefixo(d, base, 9, 10);
      var dv1 := DigitoCpf(SomaCpf(base, 9, 10));
      if d[9] == dv1 {
        assert d[..10] == (base + [dv1])[..10];
        SomaCpfPrefixo(d, base + [dv1], 10, 11);
      }
      if CpfValido(cpf) {
        assert d == d[..9] + [d[9]] + [d[10]];
      }
    }
  }

  /** Every nine-digit base that is not one repeated digit has a valid CPF. */
  lemma CpfCompletoValido(base: seq<int>)
    requires |base| == 9 && forall i :: 0 <= i < 9 ==> 0 <= base[i] <= 9
    requires exists i :: 0 <= i < 9 && base[i] != base[0]
    ensures CpfValido(Texto(CompletarCpf(base)))
  {
    var c := CompletarCpf(base);
    var t := Texto(c);
    LimparDigitos(t);
    assert Valores(t) == c;
    assert c[..9] == base;
    var i :| 0 <= i < 9 && base[i] != base[0];
    assert t[i] != t[0];
    CpfValidoSeCompleto(t);
  }

  /** A CNPJ is valid exactly when its digits are its first twelve followed by their check digits. */
  lemma CnpjValidoSeCompleto(cnpj: string)
    ensures CnpjValido(cnpj) <==>
      var limpo := Limpar(cnpj);
      |limpo| == 14 && !Repetido(limpo, 14) && Valores(limpo) == CompletarCnpj(Valores(limpo)[..12])
  {
  }

  /** Every twelve-digit base that is not one repeated digit has a valid CNPJ. */
  lemma CnpjCompletoValido(base: seq<int>)
    requires |base| == 12 && forall i :: 0 <= i < 12 ==> 0 <= base[i] <= 9
    requires exists i :: 0 <= i < 12 && base[i] != base[0]
    ensures CnpjValido(Texto(CompletarCnpj(base)))
  {
    var c := CompletarCnpj(base);
    var t := Texto(c);
    LimparDigitos(t);
    assert Valores(t) == c;
    assert c[..12] == base;
    var i :| 0 <= i < 12 && base[i] != base[0];
    assert t[i] != t[0];
    CnpjValidoSeCompleto(t);
  }

  // ---------------------------------------------------------------------------
  // Known documents
  // ---------------------------------------------------------------------------

  /** The well-known valid CPF 529.982.247-25 and its display form. */
  lemma CpfConhecido(t: string)
    requires t == "52998224725"
    ensures CpfValido(t)
    ensures FormatarDocumento(t, "PF") == "529.982.247-25"
  {
    CpfConhecidoValido(t);
    CpfConhecidoFormatado(t);
  }

  lemma DigitosCpfConhecido(d: seq<int>)
    requires d == [5, 2, 9, 9, 8, 2, 2, 4, 7, 2, 5]
    ensures DigitoCpf(SomaCpf(d, 9, 10)) == 2 && DigitoCpf(SomaCpf(d, 10, 11)) == 5
  {
    assert SomaCpf(d, 1, 10) == 50;
    assert SomaCpf(d, 2, 10) == 68;
    assert SomaCpf(d, 3, 10) == 140;
    assert SomaCpf(d, 4, 10) == 203;
    assert SomaCpf(d, 5, 10) == 251;
    assert SomaCpf(d, 6, 10) == 261;
    assert SomaCpf(d, 7, 10) == 269;
    assert SomaCpf(d, 8, 10) == 281;
    assert SomaCpf(d, 9, 10) == 295;
    assert SomaCpf(d, 1, 11) == 55;
    assert SomaCpf(d, 2, 11) == 75;
    assert SomaCpf(d, 3, 11) == 156;
    assert SomaCpf(d, 4, 11) == 228;
    assert SomaCpf(d, 5, 11) == 284;
    assert SomaCpf(d, 6, 11) == 296;
    assert SomaCpf(d, 7, 11) == 306;
    assert SomaCpf(d, 8, 11) == 322;
    assert SomaCpf(d, 9, 11) == 343;
    assert SomaCpf(d, 10, 11) == 347;
  }

  lemma CpfConhecidoValido(t: string)
    requires t == "52998224725"
    ensures CpfValido(t)
  {
    ValoresCpfConhecido(t);
    LimparDigitos(t);
    assert !Repetido(t, 11) by {
      assert t[1] != t[0];
    }
    DigitosCpfConhecido(Valores(t));
  }

  /** The digit values of 52998224725. */
  lemma ValoresCpfConhecido(t: string)
    requires t == "52998224725"
    ensures SoDigitos(t) && Valores(t) == [5, 2, 9, 9, 8, 2, 2, 4, 7, 2, 5]
  {
  }

  lemma CpfConhecidoFormatado(t: string)
    requires t == "52998224725"
    ensures FormatarDocumento(t, "PF") == "529.982.247-25"
  {
    ValoresCpfConhecido(t);
    LimparDigitos(t);
    assert t == "529" + "982" + "247" + "25" + "";
    MascaraCpfPartes("529", "982", "247", "25", "");
  }

  /** The mask inserts its separators between the four groups of 3, 3, 3 and 2 digits. */
  lemma MascaraCpfPartes(a: string, b: string, c: string, d: string, e: string)
    requires |a| == 3 && |b| == 3 && |c| == 3 && |d| == 2
    ensures MascaraCpf(a + b + c + d + e) == a + "." + b + "." + c + "-" + d + e
  {
    var n := a + b + c + d + e;
    assert n[..3] == a;
    assert n[3..6] == b;
    assert n[6..9] == c;
    assert n[9..11] == d;
    assert n[11..] == e;
  }

  lemma DigitosCnpjConhecido(base: seq<int>)
    requires base == [1, 1, 2, 2, 2, 3, 3, 3, 0, 0, 0, 1]
    ensures SomaCnpj(base, 12) == 102
    ensures DigitoCnpj(base) == 8 && DigitoCnpj(base + [8]) == 1
  {
    PesosOficiaisCnpj();
    assert SomaCnpj(base, 1) == 5;
    assert SomaCnpj(base, 2) == 9;
    assert SomaCnpj(base, 3) == 15;
    assert SomaCnpj(base, 4) == 19;
    assert SomaCnpj(base, 5) == 37;
    assert SomaCnpj(base, 6) == 61;
    assert SomaCnpj(base, 7) == 82;
    assert SomaCnpj(base, 8) == 100;
    assert SomaCnpj(base, 9) == 100;
    assert SomaCnpj(base, 10) == 100;
    assert SomaCnpj(base, 11) == 100;
    assert SomaCnpj(base, 12) == 102;
    var base1 := base + [8];
    assert base1 == [1, 1, 2, 2, 2, 3, 3, 3, 0, 0, 0, 1, 8];
    assert SomaCnpj(base1, 1) == 6;
    assert SomaCnpj(base1, 2) == 11;
    assert SomaCnpj(base1, 3) == 19;
    assert SomaCnpj(base1, 4) == 25;
    assert SomaCnpj(base1, 5) == 29;
    assert SomaCnpj(base1, 6) == 56;
    assert SomaCnpj(base1, 7) == 80;
    assert SomaCnpj(base1, 8) == 101;
    assert SomaCnpj(base1, 9) == 101;
    assert SomaCnpj(base1, 10) == 101;
    assert SomaCnpj(base1, 11) == 101;
    assert SomaCnpj(base1, 12) == 104;
    assert SomaCnpj(base1, 13) == 120;
  }

  lemma CnpjConhecidoValido(t: string)
    requires t == "11222333000181"
    ensures CnpjValido(t)
  {
    LimparDigitos(t);
    assert !Repetido(t, 14) by {
      assert t[2] != t[0];
    }
    var d := Valores(t);
    assert d[12] == 8 && d[13] == 1;
    assert d[..12] == [1, 1, 2, 2, 2, 3, 3, 3, 0, 0, 0, 1];
    DigitosCnpjConhecido(d[..12]);
  }

  /** The well-known valid CNPJ 11.222.333/0001-81 and its display form. */
  lemma CnpjConhecido(t: string)
    requires t == "11222333000181"
    ensures CnpjValido(t)
    ensures FormatarDocumento(t, "PJ") == "11.222.333/0001-81"
  {
    CnpjConhecidoValido(t);
    CnpjConhecidoFormatado(t);
  }

  lemma CnpjConhecidoFormatado(t: string)
    requires t == "11222333000181"
    ensures FormatarDocumento(t, "PJ") == "11.222.333/0001-81"
  {
    LimparDigitos(t);
    assert "PJ"[1] != "PF"[1];
    MascaraCnpjConhecida(t);
  }

  lemma MascaraCnpjConhecida(t: string)
    requires t == "11222333000181"
    ensures MascaraCnpj(t) == "11.222.333/0001-81"
  {
    assert t == "11" + "222" + "333" + "0001" + "81" + "";
    MascaraCnpjPartes("11", "222", "333", "0001", "81", "");
  }

  /** The mask inserts its separators between the five groups of 2, 3, 3, 4 and 2 digits. */
  lemma MascaraCnpjPartes(a: string, b: string, c: string, d: string, e: string, f: string)
    requires |a| == 2 && |b| == 3 && |c| == 3 && |d| == 4 && |e| == 2
    ensures MascaraCnpj(a + b + c + d + e + f) == a + "." + b + "." + c + "/" + d + "-" + e + f
  {
    var n := a + b + c + d + e + f;
    assert n[..2] == a;
    assert n[2..5] == b;
    assert n[5..8] == c;
    assert n[8..12] == d;
    assert n[12..14] == e;
    assert n[14..] == f;
  }

  /** The digit values of 11222333000181. */
  lemma ValoresCnpjConhecido(t: string)
    requires t == "11222333000181"
    ensures SoDigitos(t) && Valores(t) == [1, 1, 2, 2, 2, 3, 3, 3, 0, 0, 0, 1, 8, 1]
  {
  }

  // ---------------------------------------------------------------------------
  // Single-digit changes
  // ---------------------------------------------------------------------------

  /** Changing one digit of the base changes the weighted sum by that digit's weight times the change. */
  lemma {:induction false} SomaCnpjTroca(base: seq<int>, k: nat, i: nat, v: int)
    requires k <= |base| && i < |base|
    ensures SomaCnpj(base[i := v], k) ==
      SomaCnpj(base, k) + (if i < k then Peso(|base|, i) * (v - base[i]) else 0)
  {
    if k > 0 {
      SomaCnpjTroca(base, k - 1, i, v);
      var novo, w := base[i := v], Peso(|base|, k - 1);
      assert SomaCnpj(novo, k) == SomaCnpj(novo, k - 1) + novo[k - 1] * w;
      if k - 1 == i {
        assert novo[k - 1] * w - base[k - 1] * w == w * (v - base[i]);
      } else {
        assert novo[k - 1] == base[k - 1];
      }
    }
  }

  lemma {:induction false} SomaCnpjNaoNegativa(base: seq<int>, k: nat)
    requires 9 <= |base| <= 16 && k <= |base|
    requires forall j :: 0 <= j < |base| ==> 0 <= base[j] <= 9
    ensures SomaCnpj(base, k) >= 0
  {
    if k > 0 {
      SomaCnpjNaoNegativa(base, k - 1);
      PesoCiclico(|base|, k - 1);
    }
  }

  /** 11 is prime: a weight 2..9 times a non-zero change of one digit is never a multiple of 11. */
  lemma NaoMultiploDeOnze(w: int, x: int)
    requires 2 <= w <= 9 && -9 <= x <= 9 && x != 0
    ensures (w * x) % 11 != 0
  {
    if x > 0 {
      NaoMultiploDeOnzePositivo(w, x);
    } else {
      NaoMultiploDeOnzePositivo(w, -x);
      assert w * x == -(w * -x);
    }
  }

  lemma NaoMultiploDeOnzePositivo(w: int, x: int)
    requires 2 <= w <= 9 && 1 <= x <= 9
    ensures (w * x) % 11 != 0
  {
    if x == 1 {} else if x == 2 {} else if x == 3 {} else if x == 4 {} else if x == 5 {}
    else if x == 6 {} else if x == 7 {} else if x == 8 {} else {}
  }

  /** Adding a non-multiple of 11 changes the remainder modulo 11. */
  lemma RestoMuda(s: int, x: int)
    requires x % 11 != 0
    ensures (s + x) % 11 != s % 11
  {
  }

  /**
   * When the weighted sum of a twelve-digit base leaves a remainder of 2 or
   * more, every change of one base digit changes the check digit. Remainders
   * 0 and 1 share the check digit 0, which is where detection can fail
   * (CnpjTrocaNaoDetectada).
   */
  lemma DigitoCnpjDetectaTroca(base: seq<int>, i: nat, v: int)
    requires |base| == 12 && i < 12 && 0 <= v <= 9 && v != base[i]
    requires forall j :: 0 <= j < 12 ==> 0 <= base[j] <= 9
    requires SomaCnpj(base, 12) % 11 >= 2
    ensures DigitoCnpj(base[i := v]) != DigitoCnpj(base)
  {
    var novo := base[i := v];
    SomaCnpjTroca(base, 12, i, v);
    SomaCnpjNaoNegativa(base, 12);
    SomaCnpjNaoNegativa(novo, 12);
    PesoCiclico(12, i);
    NaoMultiploDeOnze(Peso(12, i), v - base[i]);
    var s, x := SomaCnpj(base, 12), Peso(12, i) * (v - base[i]);
    assert SomaCnpj(novo, 12) == s + x;
    RestoMuda(s, x);
  }

  /**
   * The CNPJ 11222333000181 detects every single-digit error: each of its
   * fourteen positions, changed to any other digit, gives an invalid document.
   */
  lemma CnpjConhecidoDetectaTroca(t: string, i: nat, v: int)
    requires t == "11222333000181"
    requires i < 14 && 0 <= v <= 9 && v != ValorDigito(t[i])
    ensures !CnpjValido(t[i := ('0' as int + v) as char])
  {
    ValoresCnpjConhecido(t);
    var d := Valores(t);
    TrocarDigito(t, i, v);
    DigitosConhecidosTrocados(d, i, v);
  }

  /** Writing digit v at position i of a digit string changes exactly that digit's value. */
  lemma TrocarDigito(t: string, i: nat, v: int)
    requires SoDigitos(t) && i < |t| && 0 <= v <= 9
    ensures var c := t[i := ('0' as int + v) as char];
      Limpar(c) == c && Valores(c) == Valores(t)[i := v]
  {
    var c := t[i := ('0' as int + v) as char];
    assert SoDigitos(c);
    LimparDigitos(c);
  }

  lemma DigitosConhecidosTrocados(d: seq<int>, i: nat, v: int)
    requires d == [1, 1, 2, 2, 2, 3, 3, 3, 0, 0, 0, 1, 8, 1]
    requires i < 14 && 0 <= v <= 9 && v != d[i]
    ensures var e := d[i := v];
      DigitoCnpj(e[..12]) != e[12] || DigitoCnpj(e[..12] + [e[12]]) != e[13]
  {
    var e := d[i := v];
    DigitosCnpjConhecido(d[..12]);
    if i < 12 {
      assert e[..12] == d[..12][i := v];
      DigitoCnpjDetectaTroca(d[..12], i, v);
    } else {
      assert e[..12] == d[..12];
    }
  }

  lemma DigitosCnpjSemDeteccaoA(base: seq<int>)
    requires base == [7, 1, 1, 4, 7, 7, 5, 9, 7, 4, 5, 9]
    ensures DigitoCnpj(base) == 0 && DigitoCnpj(base + [0]) == 0
  {
    PesosOficiaisCnpj();
    assert SomaCnpj(base, 1) == 35;
    assert SomaCnpj(base, 2) == 39;
    assert SomaCnpj(base, 3) == 42;
    assert SomaCnpj(base, 4) == 50;
    assert SomaCnpj(base, 5) == 113;
    assert SomaCnpj(base, 6) == 169;
    assert SomaCnpj(base, 7) == 204;
    assert SomaCnpj(base, 8) == 258;
    assert SomaCnpj(base, 9) == 293;
    assert SomaCnpj(base, 10) == 309;
    assert SomaCnpj(base, 11) == 324;
    assert SomaCnpj(base, 12) == 342;
    var base1 := base + [0];
    assert base1 == [7, 1, 1, 4, 7, 7, 5, 9, 7, 4, 5, 9, 0];
    assert SomaCnpj(base1, 1) == 42;
    assert SomaCnpj(base1, 2) == 47;
    assert SomaCnpj(base1, 3) == 51;
    assert SomaCnpj(base1, 4) == 63;
    assert SomaCnpj(base1, 5) == 77;
    assert SomaCnpj(base1, 6) == 140;
    assert SomaCnpj(base1, 7) == 180;
    assert SomaCnpj(base1, 8) == 243;
    assert SomaCnpj(base1, 9) == 285;
    assert SomaCnpj(base1, 10) == 305;
    assert SomaCnpj(base1, 11) == 325;
    assert SomaCnpj(base1, 12) == 352;
    assert SomaCnpj(base1, 13) == 352;
  }

  lemma DigitosCnpjSemDeteccaoB(base: seq<int>)
    requires base == [7, 1, 1, 4, 7, 7, 5, 9, 9, 4, 5, 9]
    ensures DigitoCnpj(base) == 0 && DigitoCnpj(base + [0]) == 0
  {
    PesosOficiaisCnpj();
    assert SomaCnpj(base, 1) == 35;
    assert SomaCnpj(base, 2) == 39;
    assert SomaCnpj(base, 3) == 42;
    assert SomaCnpj(base, 4) == 50;
    assert SomaCnpj(base, 5) == 113;
    assert SomaCnpj(base, 6) == 169;
    assert SomaCnpj(base, 7) == 204;
    assert SomaCnpj(base, 8) == 258;
    assert SomaCnpj(base, 9) == 303;
    assert SomaCnpj(base, 10) == 319;
    assert SomaCnpj(base, 11) == 334;
    assert SomaCnpj(base, 12) == 352;
    var base1 := base + [0];
    assert base1 == [7, 1, 1, 4, 7, 7, 5, 9, 9, 4, 5, 9, 0];
    assert SomaCnpj(base1, 1) == 42;
    assert SomaCnpj(base1, 2) == 47;
    assert SomaCnpj(base1, 3) == 51;
    assert SomaCnpj(base1, 4) == 63;
    assert SomaCnpj(base1, 5) == 77;
    assert SomaCnpj(base1, 6) == 140;
    assert SomaCnpj(base1, 7) == 180;
    assert SomaCnpj(base1, 8) == 243;
    assert SomaCnpj(base1, 9) == 297;
    assert SomaCnpj(base1, 10) == 317;
    assert SomaCnpj(base1, 11) == 337;
    assert SomaCnpj(base1, 12) == 364;
    assert SomaCnpj(base1, 13) == 364;
  }

  lemma CnpjSemDeteccaoAValido(t: string)
    requires t == "71147759745900"
    ensures CnpjValido(t)
  {
    LimparDigitos(t);
    assert !Repetido(t, 14) by {
      assert t[1] != t[0];
    }
    var d := Valores(t);
    assert d[12] == 0 && d[13] == 0;
    assert d[..12] == [7, 1, 1, 4, 7, 7, 5, 9, 7, 4, 5, 9];
    DigitosCnpjSemDeteccaoA(d[..12]);
  }

  lemma CnpjSemDeteccaoBValido(t: string)
    requires t == "71147759945900"
    ensures CnpjValido(t)
  {
    LimparDigitos(t);
    assert !Repetido(t, 14) by {
      assert t[1] != t[0];
    }
    var d := Valores(t);
    assert d[12] == 0 && d[13] == 0;
    assert d[..12] == [7, 1, 1, 4, 7, 7, 5, 9, 9, 4, 5, 9];
    DigitosCnpjSemDeteccaoB(d[..12]);
  }

  /**
   * Not every single-digit error is detected: these two CNPJs differ only at
   * position 8 and both pass, because the sums of their first twelve digits
   * leave remainders 1 and 0, and both give the check digit 0.
   */
  lemma CnpjTrocaNaoDetectada(a: string, b: string)
    requires a == "71147759745900" && b == "71147759945900"
    ensures CnpjValido(a) && CnpjValido(b)
    ensures |a| == |b| == 14 && a[8] != b[8]
    ensures forall j :: 0 <= j < 14 && j != 8 ==> a[j] == b[j]
  {
    CnpjSemDeteccaoAValido(a);
    CnpjSemDeteccaoBValido(b);
  }
}
