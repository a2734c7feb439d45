/** The JavaScript string built-ins the validation module relies on:
    the `\s` character class and `String.prototype.trim`, the `\d` class
    and `parseInt` of one digit, decimal rendering of a number inside a
    template literal, and `Array.prototype.join`. */
module Texto {

  /** ECMAScript WhiteSpace and LineTerminator code points: the set matched
      by the regular-expression class `\s` and removed by `trim`. */
  predicate EhEspaco(c: char) {
    || '\t' <= c <= '\r'  // tab, line feed, vertical tab, form feed, carriage return
    || c == ' ' || c == '\U{00A0}' || c == '\U{1680}'
    || '\U{2000}' <= c <= '\U{200A}'
    || c == '\U{2028}' || c == '\U{2029}' || c == '\U{202F}' || c == '\U{205F}'
    || c == '\U{3000}' || c == '\U{FEFF}'
  }

  /** No whitespace at either end: what `trim` leaves behind. */
  predicate Aparado(s: string) {
    s == [] || (!EhEspaco(s[0]) && !EhEspaco(s[|s| - 1]))
  }

  predicate SoEspacos(s: string) {
    forall i :: 0 <= i < |s| ==> EhEspaco(s[i])
  }

  /** `trimStart`: drops the longest whitespace prefix. */
  function TrimInicio(s: string): string {
    if s != [] && EhEspaco(s[0]) then TrimInicio(s[1..]) else s
  }

  /** `trimEnd`: drops the longest whitespace suffix. */
  function TrimFim(s: string): string {
    if s != [] && EhEspaco(s[|s| - 1]) then TrimFim(s[..|s| - 1]) else s
  }

  /** `String.prototype.trim`: never longer than its input, and with no
      whitespace left at either end. */
  function Trim(s: string): (r: string)
    ensures |r| <= |s| && Aparado(r)
  {
    TrimInicioCorreto(s);
    TrimFimCorreto(TrimInicio(s));
    TrimFim(TrimInicio(s))
  }

  /** `trimStart` leaves a suffix of its input that does not start with
      whitespace, and what it drops is whitespace. */
  lemma {:induction false} TrimInicioCorreto(s: string)
    ensures |TrimInicio(s)| <= |s| && TrimInicio(s) == s[|s| - |TrimInicio(s)|..]
    ensures SoEspacos(s[..|s| - |TrimInicio(s)|])
    ensures TrimInicio(s) == [] || !EhEspaco(TrimInicio(s)[0])
  {
    if s != [] && EhEspaco(s[0]) {
      TrimInicioCorreto(s[1..]);
      var r := TrimInicio(s[1..]);
      assert s[..|s| - |r|] == [s[0]] + s[1..][..|s[1..]| - |r|];
    }
  }

  /** `trimEnd` leaves a prefix of its input that does not end with
      whitespace, and what it drops is whitespace. */
  lemma {:induction false} TrimFimCorreto(s: string)
    ensures |TrimFim(s)| <= |s| && TrimFim(s) == s[..|TrimFim(s)|]
    ensures SoEspacos(s[|TrimFim(s)|..])
    ensures TrimFim(s) == [] || !EhEspaco(TrimFim(s)[|TrimFim(s)| - 1])
  {
    if s != [] && EhEspaco(s[|s| - 1]) {
      var p := s[..|s| - 1];
      TrimFimCorreto(p);
      var r := TrimFim(p);
      assert s[|r|..] == p[|r|..] + [s[|s| - 1]];
    }
  }

  /** `trim` is no longer than its input, leaves no whitespace at either
      end, is empty exactly when the input is all whitespace, and leaves an
      already trimmed string alone. */
  lemma TrimCorreto(s: string)
    ensures |Trim(s)| <= |s|
    ensures Aparado(Trim(s))
    ensures Trim(s) == [] <==> SoEspacos(s)
    ensures Aparado(s) ==> Trim(s) == s
  {
    var m := TrimInicio(s);
    var r := TrimFim(m);
    TrimInicioCorreto(s);
    TrimFimCorreto(m);
    if r == [] {
      assert s == s[..|s| - |m|] + m;
      assert SoEspacos(m[|r|..]);
    }
    if r != [] {
      assert r[0] == m[0];
    }
    if Aparado(s) && s != [] {
      assert m == s;
      assert r == s;
    }
  }

  lemma TrimIdempotente(s: string)
    ensures Trim(Trim(s)) == Trim(s)
  {
    TrimCorreto(s);
    TrimCorreto(Trim(s));
  }

  predicate EhDigito(c: char) {
    '0' <= c <= '9'
  }

  predicate SoDigitosEm(s: string) {
    forall i :: 0 <= i < |s| ==> EhDigito(s[i])
  }

  /** `parseInt` of a one-character digit string. */
  function Val(c: char): (d: nat)
    requires EhDigito(c)
    ensures d < 10
  {
    (c as int) - ('0' as int)
  }

  function Digito(d: nat): (c: char)
    requires d < 10
    ensures EhDigito(c) && Val(c) == d
  {
    ((d + '0' as int) as char)
  }

  /** `s.replace(/[^\d]+/g, "")`: keeps the decimal digits, in order. */
  function SoDigitos(s: string): (r: string)
    ensures SoDigitosEm(r)
    ensures |r| <= |s|
    ensures SoDigitosEm(s) ==> r == s
  {
    if s == [] then []
    else (if EhDigito(s[0]) then [s[0]] else []) + SoDigitos(s[1..])
  }

  /** Removing the non-digits of a concatenation removes them piecewise; with
      `SoDigitos([c])` being `[c]` for a digit and `[]` otherwise, this
      pins down the filter completely. */
  lemma {:induction false} SoDigitosConcat(a: string, b: string)
    ensures SoDigitos(a + b) == SoDigitos(a) + SoDigitos(b)
  {
    if a == [] {
      assert a + b == b;
    } else {
      assert (a + b)[0] == a[0] && (a + b)[1..] == a[1..] + b;
      SoDigitosConcat(a[1..], b);
    }
  }

  /** Decimal rendering of a natural number, as a template literal
      `${n}` produces it. */
  function Decimal(n: nat): (s: string)
    ensures |s| >= 1 && SoDigitosEm(s)
    ensures s[0] == '0' ==> n == 0
    decreases n
  {
    if n < 10 then [Digito(n)] else Decimal(n / 10) + [Digito(n % 10)]
  }

  /** The number a string of decimal digits denotes. */
  function ValorDecimal(s: string): nat
    requires SoDigitosEm(s)
  {
    if s == [] then 0 else ValorDecimal(s[..|s| - 1]) * 10 + Val(s[|s| - 1])
  }

  /** Reading back a rendered number gives the number. */
  lemma {:induction false} DecimalIdaVolta(n: nat)
    ensures ValorDecimal(Decimal(n)) == n
    decreases n
  {
    if n >= 10 {
      var s := Decimal(n);
      assert s[..|s| - 1] == Decimal(n / 10);
      DecimalIdaVolta(n / 10);
    }
  }

  /** Distinct numbers render differently. */
  lemma DecimalInjetivo(m: nat, n: nat)
    requires Decimal(m) == Decimal(n)
    ensures m == n
  {
    DecimalIdaVolta(m);
    DecimalIdaVolta(n);
  }

  /** `xs.join(sep)`. */
  function Juntar(xs: seq<string>, sep: string): (r: string)
    ensures xs == [] ==> r == ""
    ensures |xs| == 1 ==> r == xs[0]
    ensures xs != [] ==> xs[0] <= r
  {
    if xs == [] then ""
    else if |xs| == 1 then xs[0]
    else xs[0] + sep + Juntar(xs[1..], sep)
  }
}
