/** The identifier checks of the validation module: the e-mail shape test
    and the modulo-11 check digits of the Brazilian CPF (individual
    taxpayer, 11 digits) and CNPJ (company, 14 digits) numbers. */
module Documentos {
  import opened Texto

  // ---------------------------------------------------------------------
  // E-mail: /^[^\s@]+@[^\s@]+\.[^\s@]+$/
  // ---------------------------------------------------------------------

  /** The character class `[^\s@]`. */
  predicate ClasseEmail(c: char) {
    !EhEspaco(c) && c != '@'
  }

  /** `[^\s@]+`: a non-empty run of the class. */
  predicate Corrida(s: string) {
    |s| > 0 && forall k :: 0 <= k < |s| ==> ClasseEmail(s[k])
  }

  /** What the regular expression matches, read as a statement about how
      the whole string splits: a run, '@', a run, '.', a run. */
  ghost predicate CasaPadraoEmail(s: string) {
    exists i, j :: 0 <= i < j < |s| && s[i] == '@' && s[j] == '.'
                   && Corrida(s[..i]) && Corrida(s[i + 1..j]) && Corrida(s[j + 1..])
  }

  /** Index of the first `c` in `s`, or `|s|` when there is none. */
  function IndiceDe(s: string, c: char): (k: nat)
    ensures k <= |s|
    ensures k < |s| ==> s[k] == c
    ensures forall m :: 0 <= m < k ==> s[m] != c
  {
    if s == [] then 0 else if s[0] == c then 0 else 1 + IndiceDe(s[1..], c)
  }

  /** `validarEmail`: the part before the first '@' is a run of the class,
      and the part after it is a run that has a '.' somewhere other than
      its first or last position. */
  function ValidarEmail(email: string): (r: bool)
    ensures r ==> |email| >= 5 && ClasseEmail(email[0]) && ClasseEmail(email[|email| - 1])
  {
    var i := IndiceDe(email, '@');
    i < |email| && Corrida(email[..i]) && DominioEmail(email[i + 1..])
  }

  /** `[^\s@]+\.[^\s@]+`: a run with a '.' that is neither first nor last. */
  predicate DominioEmail(d: string) {
    Corrida(d) && |d| >= 3 && '.' in d[1..|d| - 1]
  }

  /** Every string the e-mail test accepts matches the pattern. */
  lemma ValidarEmailCasa(email: string)
    requires ValidarEmail(email)
    ensures CasaPadraoEmail(email)
  {
    var i := IndiceDe(email, '@');
    var d := email[i + 1..];
    var k :| 0 <= k < |d| - 2 && d[1..|d| - 1][k] == '.';
    var j := i + 2 + k;
    assert email[i + 1..j] == d[..k + 1];
    assert email[j + 1..] == d[k + 2..];
    assert email[j] == '.';
  }

  lemma CorridaConcat(x: string, c: char, y: string)
    requires Corrida(x) && ClasseEmail(c) && Corrida(y)
    ensures Corrida(x + [c] + y)
  {
    var s := x + [c] + y;
    forall m | 0 <= m < |s|
      ensures ClasseEmail(s[m])
    {
      if m < |x| {
        assert s[m] == x[m];
      } else if m > |x| {
        assert s[m] == y[m - |x| - 1];
      }
    }
  }

  lemma {:induction false} IndiceDePrimeiro(s: string, c: char, a: nat)
    requires a < |s| && s[a] == c && forall m :: 0 <= m < a ==> s[m] != c
    ensures IndiceDe(s, c) == a
  {
    if a > 0 {
      IndiceDePrimeiro(s[1..], c, a - 1);
    }
  }

  /** Every string the pattern matches passes the e-mail test. */
  lemma CasaValidarEmail(email: string)
    requires CasaPadraoEmail(email)
    ensures ValidarEmail(email)
  {
    var a, b :| 0 <= a < b < |email| && email[a] == '@' && email[b] == '.'
                && Corrida(email[..a]) && Corrida(email[a + 1..b]) && Corrida(email[b + 1..]);
    DivisaoValida(email, a, b);
  }

  lemma DivisaoValida(email: string, a: nat, b: nat)
    requires a < b < |email| && email[a] == '@' && email[b] == '.'
    requires Corrida(email[..a]) && Corrida(email[a + 1..b]) && Corrida(email[b + 1..])
    ensures IndiceDe(email, '@') == a && DominioEmail(email[a + 1..])
  {
    forall m | 0 <= m < a
      ensures email[m] != '@'
    {
      assert email[..a][m] == email[m];
    }
    IndiceDePrimeiro(email, '@', a);
    var d := email[a + 1..];
    assert d == email[a + 1..b] + [email[b]] + email[b + 1..];
    CorridaConcat(email[a + 1..b], email[b], email[b + 1..]);
    assert d[1..|d| - 1][b - a - 2] == '.';
  }

  /** The e-mail test accepts exactly the strings the pattern matches. */
  lemma ValidarEmailCorreto(email: string)
    ensures ValidarEmail(email) <==> CasaPadraoEmail(email)
  {
    if ValidarEmail(email) {
      ValidarEmailCasa(email);
    }
    if CasaPadraoEmail(email) {
      CasaValidarEmail(email);
    }
  }

  /** Whitespace anywhere is refused. */
  lemma EmailSemEspacos(email: string, k: nat)
    requires k < |email| && EhEspaco(email[k])
    ensures !ValidarEmail(email)
  {
  }

  /** A second '@' is refused. */
  lemma EmailUmaArroba(email: string, k: nat)
    requires k < |email| && email[k] == '@' && k != IndiceDe(email, '@')
    ensures !ValidarEmail(email)
  {
  }

  /** "a@b.co" passes. */
  lemma EmailExemploValido()
    ensures ValidarEmail("a@b.co")
  {
    assert IndiceDe("a@b.co", '@') == 1;
    assert "a@b.co"[..1] == "a" && "a@b.co"[2..] == "b.co";
    assert "b.co"[1..3][0] == '.' && Corrida("b.co");
  }

  /** "a@b" (no dot), "a@.c" (dot first), "a b@c.d" (a space) and
      "a@@b.c" (two '@') fail. */
  lemma EmailExemplosInvalidos()
    ensures !ValidarEmail("a@b") && !ValidarEmail("a@.c")
    ensures !ValidarEmail("a b@c.d") && !ValidarEmail("a@@b.c")
  {
    EmailSemEspacos("a b@c.d", 1);
    EmailUmaArroba("a@@b.c", 2);
  }

  // ---------------------------------------------------------------------
  // CPF
  // ---------------------------------------------------------------------

  /** The test `/^(\d)\1+$/`: one digit repeated, at least twice. */
  predicate Repetido(d: string) {
    |d| >= 2 && EhDigito(d[0]) && forall k :: 0 <= k < |d| ==> d[k] == d[0]
  }

  /** Weighted sum of the digits of `p`, the first weighing `peso` and
      each next one 1 less (10 down to 2 for the first CPF check digit, 11
      down to 2 for the second). */
  function SomaCpf(p: string, peso: nat): nat
    requires SoDigitosEm(p) && |p| <= peso
  {
    if p == [] then 0 else Val(p[0]) * peso + SomaCpf(p[1..], peso - 1)
  }

  /** The CPF check digit of a weighted sum: `(soma * 10) % 11`, with 10
      (and 11, which cannot occur) read as 0. */
  function DigitoCpf(soma: nat): (dv: nat)
    ensures dv < 10
  {
    var resto := (soma * 10) % 11;
    if resto == 10 || resto == 11 then 0 else resto
  }

  /** A digit string is a valid CPF: 11 digits, not all equal, whose last
      two are the check digits of the first 9 and of the first 10. */
  predicate CpfValido(d: string)
    requires SoDigitosEm(d)
  {
    && |d| == 11
    && !Repetido(d)
    && DigitoCpf(SomaCpf(d[..9], 10)) == Val(d[9])
    && DigitoCpf(SomaCpf(d[..10], 11)) == Val(d[10])
  }

  /** `validarCPF`: strips the non-digits and checks the two check digits,
      stopping at the first that does not match. */
  method ValidarCPF(cpf: string) returns (ok: bool)
    ensures ok == CpfValido(SoDigitos(cpf))
  {
    var d := SoDigitos(cpf);
    if |d| != 11 || Repetido(d) {
      return false;
    }
    var soma := 0;
    for i := 1 to 10
      invariant soma + SomaCpf(d[i - 1..9], 11 - i) == SomaCpf(d[..9], 10)
    {
      assert d[i - 1..9][1..] == d[i..9];
      soma := soma + Val(d[i - 1]) * (11 - i);
    }
    var resto := (soma * 10) % 11;
    if resto == 10 || resto == 11 {
      resto := 0;
    }
    if resto != Val(d[9]) {
      return false;
    }
    soma := 0;
    for i := 1 to 11
      invariant soma + SomaCpf(d[i - 1..10], 12 - i) == SomaCpf(d[..10], 11)
    {
      assert d[i - 1..10][1..] == d[i..10];
      soma := soma + Val(d[i - 1]) * (12 - i);
    }
    resto := (soma * 10) % 11;
    if resto == 10 || resto == 11 {
      resto := 0;
    }
    ok := resto == Val(d[10]);
  }

  // ---------------------------------------------------------------------
  // CNPJ
  // ---------------------------------------------------------------------

  /** Weight of position k in the CNPJ sum over the first n digits: 2 for
      the last position, rising to 9 towards the left, then starting again
      at 2. */
  function PesoCnpj(n: int, k: int): (w: nat)
    ensures 2 <= w <= 9
  {
    2 + (n - 1 - k) % 8
  }

  /** Weighted sum of the digits of `p`, taken as positions k, k+1, ... of
      an n-digit CNPJ prefix. */
  function SomaCnpjDesde(p: string, n: int, k: int): nat
    requires SoDigitosEm(p)
  {
    if p == [] then 0 else Val(p[0]) * PesoCnpj(n, k) + SomaCnpjDesde(p[1..], n, k + 1)
  }

  /** Weighted sum of an n-digit CNPJ prefix. */
  function SomaCnpj(p: string): nat
    requires SoDigitosEm(p)
  {
    SomaCnpjDesde(p, |p|, 0)
  }

  /** One step of the source's weight counter: `pos--`, then back to 9
      below 2, gives the weight of the next position. */
  lemma PesoCnpjSeguinte(n: int, k: int)
    ensures PesoCnpj(n, k + 1) == if PesoCnpj(n, k) - 1 < 2 then 9 else PesoCnpj(n, k) - 1
  {
  }

  /** The CNPJ check digit of a weighted sum: 0 when the remainder modulo
      11 is below 2, else 11 minus the remainder. */
  function DigitoCnpj(soma: nat): (dv: nat)
    ensures dv < 10
  {
    if soma % 11 < 2 then 0 else 11 - soma % 11
  }

  /** A digit string is a valid CNPJ: 14 digits whose last two are the
      check digits of the first 12 and of the first 13. */
  predicate CnpjValido(d: string)
    requires SoDigitosEm(d)
  {
    && |d| == 14
    && DigitoCnpj(SomaCnpj(d[..12])) == Val(d[12])
    && DigitoCnpj(SomaCnpj(d[..13])) == Val(d[13])
  }

  /** The weighted-sum loop of `validarCNPJ`, run over the first 12 and
      then the first 13 digits: `pos` starts at `tamanho - 7`, weighs one
      digit, counts down and wraps from 1 back to 9. */
  method SomaPonderadaCnpj(numeros: string, tamanho: nat) returns (soma: nat)
    requires SoDigitosEm(numeros) && |numeros| == tamanho
    requires tamanho == 12 || tamanho == 13
    ensures soma == SomaCnpj(numeros)
  {
    soma := 0;
    var pos := tamanho - 7;
    var i := tamanho;
    while i >= 1
      invariant 0 <= i <= tamanho
      invariant soma + SomaCnpjDesde(numeros[tamanho - i..], tamanho, tamanho - i) == SomaCnpj(numeros)
      invariant pos == PesoCnpj(tamanho, tamanho - i)
    {
      assert numeros[tamanho - i..][1..] == numeros[tamanho - i + 1..];
      PesoCnpjSeguinte(tamanho, tamanho - i);
      soma := soma + Val(numeros[tamanho - i]) * pos;
      pos := pos - 1;
      if pos < 2 {
        pos := 9;
      }
      i := i - 1;
    }
  }

  /** `validarCNPJ`: strips the non-digits and checks the two check digits,
      stopping at the first that does not match. */
  method ValidarCNPJ(cnpj: string) returns (ok: bool)
    ensures ok == CnpjValido(SoDigitos(cnpj))
  {
    var d := SoDigitos(cnpj);
    if |d| != 14 {
      return false;
    }
    var tamanho := |d| - 2;
    var numeros := d[..tamanho];
    var digitos := d[tamanho..];
    var soma := SomaPonderadaCnpj(numeros, tamanho);
    var resultado := if soma % 11 < 2 then 0 else 11 - soma % 11;
    if resultado != Val(digitos[0]) {
      return false;
    }
    tamanho := tamanho + 1;
    numeros := d[..tamanho];
    soma := SomaPonderadaCnpj(numeros, tamanho);
    resultado := if soma % 11 < 2 then 0 else 11 - soma % 11;
    ok := resultado == Val(digitos[1]);
  }

  // ---------------------------------------------------------------------
  // Properties of the two schemes
  // ---------------------------------------------------------------------

  /** The CPF rule `(soma * 10) % 11`, 10 read as 0, is the CNPJ rule
      `soma % 11 < 2 ? 0 : 11 - soma % 11`. */
  lemma DigitoCpfIgualCnpj(soma: nat)
    ensures DigitoCpf(soma) == DigitoCnpj(soma)
  {
    var q, r := soma / 11, soma % 11;
    assert soma * 10 == 11 * (10 * q) + 10 * r;
    MultiploDe11(10 * q, 10 * r);
    assert (10 * r) % 11 == if r == 0 then 0 else 11 - r;
  }

  lemma {:induction false} MultiploDe11(m: nat, x: nat)
    ensures (11 * m + x) % 11 == x % 11
  {
    if m > 0 {
      MultiploDe11(m - 1, x);
      assert 11 * m + x == 11 * (m - 1) + x + 11;
    }
  }

  /** Changing either CPF check digit of a valid CPF makes it invalid. */
  lemma CpfDigitoVerificadorAlterado(d: string, e: string, k: nat)
    requires SoDigitosEm(d) && SoDigitosEm(e) && CpfValido(d)
    requires |e| == 11 && (k == 9 || k == 10)
    requires e[..k] == d[..k] && e[k] != d[k]
    ensures !CpfValido(e)
  {
    assert e[..k][..9] == e[..9] && d[..k][..9] == d[..9];
    if k == 9 {
      assert Val(e[9]) != Val(d[9]);
    } else {
      assert Val(e[10]) != Val(d[10]);
    }
  }

  /** Changing either CNPJ check digit of a valid CNPJ makes it invalid. */
  lemma CnpjDigitoVerificadorAlterado(d: string, e: string, k: nat)
    requires SoDigitosEm(d) && SoDigitosEm(e) && CnpjValido(d)
    requires |e| == 14 && (k == 12 || k == 13)
    requires e[..k] == d[..k] && e[k] != d[k]
    ensures !CnpjValido(e)
  {
    assert e[..k][..12] == e[..12] && d[..k][..12] == d[..12];
    if k == 12 {
      assert Val(e[12]) != Val(d[12]);
    } else {
      assert Val(e[13]) != Val(d[13]);
    }
  }

  /** A CPF made of one repeated digit is refused whatever its check
      digits compute to. */
  lemma CpfRepetidoRecusado(d: string)
    requires SoDigitosEm(d) && |d| == 11
    requires forall k :: 0 <= k < 11 ==> d[k] == d[0]
    ensures !CpfValido(d)
  {
  }

  lemma SomaCpfPasso(p: string, k: nat, peso: nat)
    requires SoDigitosEm(p) && k < |p| && |p| - k <= peso
    ensures SomaCpf(p[k..], peso) == Val(p[k]) * peso + SomaCpf(p[k + 1..], peso - 1)
  {
    assert p[k..][1..] == p[k + 1..];
  }

  /** The first CPF sum written out: weights 10 down to 2. */
  lemma SomaCpfPrimeiro(p: string)
    requires SoDigitosEm(p) && |p| == 9
    ensures SomaCpf(p, 10) == 10 * Val(p[0]) + 9 * Val(p[1]) + 8 * Val(p[2]) + 7 * Val(p[3])
                              + 6 * Val(p[4]) + 5 * Val(p[5]) + 4 * Val(p[6]) + 3 * Val(p[7])
                              + 2 * Val(p[8])
  {
    assert p[0..] == p;
    SomaCpfPasso(p, 0, 10); SomaCpfPasso(p, 1, 9); SomaCpfPasso(p, 2, 8);
    SomaCpfPasso(p, 3, 7); SomaCpfPasso(p, 4, 6); SomaCpfPasso(p, 5, 5);
    SomaCpfPasso(p, 6, 4); SomaCpfPasso(p, 7, 3); SomaCpfPasso(p, 8, 2);
    assert p[9..] == [];
  }

  /** The second CPF sum written out: weights 11 down to 2. */
  lemma SomaCpfSegundo(p: string)
    requires SoDigitosEm(p) && |p| == 10
    ensures SomaCpf(p, 11) == 11 * Val(p[0]) + 10 * Val(p[1]) + 9 * Val(p[2]) + 8 * Val(p[3])
                              + 7 * Val(p[4]) + 6 * Val(p[5]) + 5 * Val(p[6]) + 4 * Val(p[7])
                              + 3 * Val(p[8]) + 2 * Val(p[9])
  {
    assert p[0..] == p;
    SomaCpfPasso(p, 0, 11); SomaCpfPasso(p, 1, 10); SomaCpfPasso(p, 2, 9);
    SomaCpfPasso(p, 3, 8); SomaCpfPasso(p, 4, 7); SomaCpfPasso(p, 5, 6);
    SomaCpfPasso(p, 6, 5); SomaCpfPasso(p, 7, 4); SomaCpfPasso(p, 8, 3);
    SomaCpfPasso(p, 9, 2);
    assert p[10..] == [];
  }

  lemma SomaCnpjPasso(p: string, n: int, k: nat, peso: nat)
    requires SoDigitosEm(p) && k < |p| && peso == PesoCnpj(n, k)
    ensures SomaCnpjDesde(p[k..], n, k) == Val(p[k]) * peso + SomaCnpjDesde(p[k + 1..], n, k + 1)
  {
    assert p[k..][1..] == p[k + 1..];
  }

  /** The first CNPJ sum written out: weights 5,4,3,2,9,8,7,6,5,4,3,2. */
  lemma SomaCnpjPrimeiro(p: string)
    requires SoDigitosEm(p) && |p| == 12
    ensures SomaCnpj(p) == 5 * Val(p[0]) + 4 * Val(p[1]) + 3 * Val(p[2]) + 2 * Val(p[3])
                           + 9 * Val(p[4]) + 8 * Val(p[5]) + 7 * Val(p[6]) + 6 * Val(p[7])
                           + 5 * Val(p[8]) + 4 * Val(p[9]) + 3 * Val(p[10]) + 2 * Val(p[11])
  {
    assert p[0..] == p;
    SomaCnpjPasso(p, 12, 0, 5); SomaCnpjPasso(p, 12, 1, 4); SomaCnpjPasso(p, 12, 2, 3);
    SomaCnpjPasso(p, 12, 3, 2); SomaCnpjPasso(p, 12, 4, 9); SomaCnpjPasso(p, 12, 5, 8);
    SomaCnpjPasso(p, 12, 6, 7); SomaCnpjPasso(p, 12, 7, 6); SomaCnpjPasso(p, 12, 8, 5);
    SomaCnpjPasso(p, 12, 9, 4); SomaCnpjPasso(p, 12, 10, 3); SomaCnpjPasso(p, 12, 11, 2);
    assert p[12..] == [];
  }

  /** The second CNPJ sum written out: weights 6,5,4,3,2,9,8,7,6,5,4,3,2. */
  lemma SomaCnpjSegundo(p: string)
    requires SoDigitosEm(p) && |p| == 13
    ensures SomaCnpj(p) == 6 * Val(p[0]) + 5 * Val(p[1]) + 4 * Val(p[2]) + 3 * Val(p[3])
                           + 2 * Val(p[4]) + 9 * Val(p[5]) + 8 * Val(p[6]) + 7 * Val(p[7])
                           + 6 * Val(p[8]) + 5 * Val(p[9]) + 4 * Val(p[10]) + 3 * Val(p[11])
                           + 2 * Val(p[12])
  {
    assert p[0..] == p;
    SomaCnpjPasso(p, 13, 0, 6); SomaCnpjPasso(p, 13, 1, 5); SomaCnpjPasso(p, 13, 2, 4);
    SomaCnpjPasso(p, 13, 3, 3); SomaCnpjPasso(p, 13, 4, 2); SomaCnpjPasso(p, 13, 5, 9);
    SomaCnpjPasso(p, 13, 6, 8); SomaCnpjPasso(p, 13, 7, 7); SomaCnpjPasso(p, 13, 8, 6);
    SomaCnpjPasso(p, 13, 9, 5); SomaCnpjPasso(p, 13, 10, 4); SomaCnpjPasso(p, 13, 11, 3);
    SomaCnpjPasso(p, 13, 12, 2);
    assert p[13..] == [];
  }

  /** A CPF that passes: 529.982.247-25. */
  lemma CpfExemplo(d: string)
    requires d == "52998224725"
    ensures SoDigitosEm(d) && CpfValido(d)
  {
    SomaCpfPrimeiro(d[..9]);
    SomaCpfSegundo(d[..10]);
    assert d[1] != d[0];
  }

  /** A CNPJ that passes: 11.222.333/0001-81. */
  lemma CnpjExemplo(d: string)
    requires d == "11222333000181"
    ensures SoDigitosEm(d) && CnpjValido(d)
  {
    SomaCnpjPrimeiro(d[..12]);
    SomaCnpjSegundo(d[..13]);
  }

  /** The CNPJ check has no repeated-digit rejection: fourteen zeros pass. */
  lemma CnpjZerosAceito(d: string)
    requires d == "00000000000000"
    ensures SoDigitosEm(d) && CnpjValido(d)
  {
    SomaCnpjPrimeiro(d[..12]);
    SomaCnpjSegundo(d[..13]);
  }

  /** Changing one digit of a valid CPF does not always make it invalid:
      both "10000000604" and "00000000604" pass, because the first digit
      weighs 11 (a multiple of 11) in the second sum and the remainders 0
      and 1 both give check digit 0 in the first. */
  lemma CpfMutacaoNaoDetectada(a: string, b: string)
    requires a == "10000000604" && b == "00000000604"
    ensures SoDigitosEm(a) && SoDigitosEm(b)
    ensures a[1..] == b[1..] && a[0] != b[0]
    ensures CpfValido(a) && CpfValido(b)
  {
    SomaCpfPrimeiro(a[..9]);
    SomaCpfSegundo(a[..10]);
    SomaCpfPrimeiro(b[..9]);
    SomaCpfSegundo(b[..10]);
    assert a[1] != a[0] && b[8] != b[0];
  }

  /** The CNPJ check does not catch every change of one digit either:
      "00000000003700" and "20000000003700" both pass. Raising the first
      digit by 2 adds 10 to the first sum and 12 to the second; their
      remainders modulo 11 go from 1 to 0 and from 0 to 1, and both 0 and 1
      give check digit 0. */
  lemma CnpjMutacaoNaoDetectada(a: string, b: string)
    requires a == "00000000003700" && b == "20000000003700"
    ensures SoDigitosEm(a) && SoDigitosEm(b)
    ensures a[1..] == b[1..] && a[0] != b[0]
    ensures CnpjValido(a) && CnpjValido(b)
  {
    SomaCnpjPrimeiro(a[..12]);
    SomaCnpjSegundo(a[..13]);
    SomaCnpjPrimeiro(b[..12]);
    SomaCnpjSegundo(b[..13]);
  }
}
