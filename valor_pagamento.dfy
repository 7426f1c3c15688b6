/** The payment-amount normalisation of the credit-statement form
    (src/components/FaturaCartao/FaturaCartao.tsx, line 78): every character
    other than an ASCII digit or a comma is removed, the first comma becomes
    a decimal point, and `parseFloat` reads the longest leading decimal
    number. `None` stands for the `NaN` that `parseFloat` returns when there
    is no number to read. */
module ValorPagamento {

  import opened Types

  predicate Digito(c: char) {
    '0' <= c <= '9'
  }

  /** The characters `/[^\d,]/g` does not remove. */
  predicate Mantido(c: char) {
    Digito(c) || c == ','
  }

  /** The characters a string has after both rewrites. */
  predicate Normalizado(c: char) {
    Digito(c) || c == ',' || c == '.'
  }

  // ---------------------------------------------------------------------
  // First rewrite: `.replace(/[^\d,]/g, '')`
  // ---------------------------------------------------------------------

  /** The digits of `s`, in order. */
  function Digitos(s: string): (r: string)
    ensures |r| <= |s|
    ensures forall i :: 0 <= i < |r| ==> Digito(r[i])
  {
    if s == [] then []
    else Digitos(s[..|s| - 1]) + (if Digito(s[|s| - 1]) then [s[|s| - 1]] else [])
  }

  /** Deletes every character that is neither a digit nor a comma: the
      result holds only those, and a string that holds only those is left
      as it is (so the rewrite is idempotent). */
  function SomenteDigitosEVirgulas(s: string): (r: string)
    ensures |r| <= |s|
    ensures forall i :: 0 <= i < |r| ==> Mantido(r[i])
    ensures (forall i :: 0 <= i < |s| ==> Mantido(s[i])) ==> r == s
  {
    if s == [] then []
    else
      assert s == s[..|s| - 1] + [s[|s| - 1]];
      SomenteDigitosEVirgulas(s[..|s| - 1]) + (if Mantido(s[|s| - 1]) then [s[|s| - 1]] else [])
  }

  lemma SomenteDigitosEVirgulasUm(a: string, c: char)
    ensures SomenteDigitosEVirgulas(a + [c]) == SomenteDigitosEVirgulas(a) + (if Mantido(c) then [c] else [])
  {
    assert (a + [c])[..|a|] == a;
  }

  /** The rewrite works character by character: it distributes over
      concatenation. */
  lemma {:induction false} SomenteDigitosEVirgulasConcat(a: string, b: string)
    ensures SomenteDigitosEVirgulas(a + b) == SomenteDigitosEVirgulas(a) + SomenteDigitosEVirgulas(b)
  {
    if b == [] {
      assert a + b == a;
    } else {
      var pre, c := b[..|b| - 1], b[|b| - 1];
      assert b == pre + [c];
      assert a + b == (a + pre) + [c];
      SomenteDigitosEVirgulasConcat(a, pre);
      SomenteDigitosEVirgulasUm(a + pre, c);
      SomenteDigitosEVirgulasUm(pre, c);
    }
  }

  lemma DigitosConcatUm(a: string, c: char)
    ensures Digitos(a + [c]) == Digitos(a) + (if Digito(c) then [c] else [])
  {
    assert (a + [c])[..|a|] == a;
  }

  /** The first rewrite keeps every digit, in order. */
  lemma {:induction false} DigitosPreservados(s: string)
    ensures Digitos(SomenteDigitosEVirgulas(s)) == Digitos(s)
  {
    if s != [] {
      var pre, c := s[..|s| - 1], s[|s| - 1];
      DigitosPreservados(pre);
      var a := SomenteDigitosEVirgulas(pre);
      if Mantido(c) {
        DigitosConcatUm(a, c);
      } else {
        assert a + [] == a;
      }
    }
  }

  /** A string without digits has no digit at any position. */
  lemma {:induction false} SemDigitos(s: string)
    requires Digitos(s) == []
    ensures forall i :: 0 <= i < |s| ==> !Digito(s[i])
  {
    if s != [] {
      var pre := s[..|s| - 1];
      SemDigitos(pre);
      assert forall i :: 0 <= i < |pre| ==> s[i] == pre[i];
    }
  }

  // ---------------------------------------------------------------------
  // Second rewrite: `.replace(',', '.')`
  // ---------------------------------------------------------------------

  /** The index of the first comma, or |s| when there is none. */
  function PrimeiraVirgula(s: string): (k: nat)
    ensures k <= |s|
    ensures k < |s| ==> s[k] == ','
    ensures forall j :: 0 <= j < k ==> s[j] != ','
  {
    if s == [] || s[0] == ',' then 0 else 1 + PrimeiraVirgula(s[1..])
  }

  /** A string-pattern `replace` rewrites only the first occurrence: the
      first comma becomes '.', every other character stays. */
  function PrimeiraVirgulaParaPonto(s: string): (r: string)
    ensures PrimeiraVirgula(s) == |s| ==> r == s
    ensures PrimeiraVirgula(s) < |s| ==> r == s[PrimeiraVirgula(s) := '.']
  {
    if s == [] then []
    else if s[0] == ',' then ['.'] + s[1..]
    else [s[0]] + PrimeiraVirgulaParaPonto(s[1..])
  }

  // ---------------------------------------------------------------------
  // `parseFloat` on strings of digits, commas and points
  // ---------------------------------------------------------------------

  /** The length of the run of digits that starts `s`. */
  function DigitosIniciais(s: string): (k: nat)
    ensures k <= |s|
    ensures forall i :: 0 <= i < k ==> Digito(s[i])
    ensures k < |s| ==> !Digito(s[k])
  {
    if s == [] || !Digito(s[0]) then 0 else 1 + DigitosIniciais(s[1..])
  }

  function ValorDigito(c: char): (v: nat)
    requires Digito(c)
    ensures v < 10
  {
    (c as int) - ('0' as int)
  }

  /** The number a run of decimal digits denotes. */
  function ValorDosDigitos(ds: string): nat
    requires forall i :: 0 <= i < |ds| ==> Digito(ds[i])
  {
    if ds == [] then 0 else ValorDosDigitos(ds[..|ds| - 1]) * 10 + ValorDigito(ds[|ds| - 1])
  }

  function Pot10(n: nat): (p: nat)
    ensures p >= 1
  {
    if n == 0 then 1 else 10 * Pot10(n - 1)
  }

  /** The value of a decimal literal with integer part `inteira` and
      `casas` fraction digits denoting `fracao`. */
  function Decimal(inteira: nat, fracao: nat, casas: nat): (v: real)
    ensures v >= 0.0
  {
    (inteira as real) + (fracao as real) / (Pot10(casas) as real)
  }

  /** Whether a decimal literal starts `s`: a digit, or a point followed by
      a digit. */
  predicate ComecaNumero(s: string) {
    |s| > 0 && (Digito(s[0]) || (s[0] == '.' && |s| > 1 && Digito(s[1])))
  }

  /** The literal after the integer digits `s[..k]` when a point follows
      them: the fraction digits, if any, are read too. */
  function LerFracao(s: string, k: nat): (r: Option<real>)
    requires k < |s| && s[k] == '.'
    requires forall i :: 0 <= i < k ==> Digito(s[i])
  {
    var f := s[k + 1..];
    var m := DigitosIniciais(f);
    if k == 0 && m == 0 then None
    else Some(Decimal(ValorDosDigitos(s[..k]), ValorDosDigitos(f[..m]), m))
  }

  /** `parseFloat` restricted to strings of digits, commas and points (the
      only ones the form passes it): integer digits, then optionally a point
      and fraction digits; reading stops at the first character that cannot
      continue the literal. No literal, no number. */
  function LerDecimal(s: string): (r: Option<real>)
    requires forall i :: 0 <= i < |s| ==> Normalizado(s[i])
    ensures r.None? <==> !ComecaNumero(s)
    ensures r.Some? ==> r.value >= 0.0
  {
    var k := DigitosIniciais(s);
    if k < |s| && s[k] == '.' then LerFracao(s, k)
    else if k == 0 then None
    else Some(ValorDosDigitos(s[..k]) as real)
  }

  // ---------------------------------------------------------------------
  // The whole normalisation
  // ---------------------------------------------------------------------

  lemma NormalizadoAposReescritas(s: string)
    ensures forall i :: 0 <= i < |PrimeiraVirgulaParaPonto(SomenteDigitosEVirgulas(s))| ==>
              Normalizado(PrimeiraVirgulaParaPonto(SomenteDigitosEVirgulas(s))[i])
  {
  }

  /** The amount handed to the payment call. It is never negative, since a
      minus sign is deleted with the other characters. */
  function ValorNormalizado(s: string): (r: Option<real>)
    ensures r.Some? ==> r.value >= 0.0
  {
    NormalizadoAposReescritas(s);
    LerDecimal(PrimeiraVirgulaParaPonto(SomenteDigitosEVirgulas(s)))
  }

  /** The amount is missing (NaN) exactly when, once non-digits other than
      commas are deleted, nothing is left or what is left starts with a
      comma not followed by a digit. */
  lemma ValorIndefinido(s: string)
    ensures var t := SomenteDigitosEVirgulas(s);
            ValorNormalizado(s).None? <==> (t == [] || (t[0] == ',' && (|t| == 1 || !Digito(t[1]))))
  {
    NormalizadoAposReescritas(s);
  }

  /** A string with no digit gives no number, whatever else it holds. */
  lemma SemDigitosSemValor(s: string)
    requires Digitos(s) == []
    ensures ValorNormalizado(s) == None
  {
    DigitosPreservados(s);
    SemDigitos(SomenteDigitosEVirgulas(s));
  }

  /** Characters other than digits and commas make no difference wherever
      they stand: a currency prefix, spaces, thousands points or a minus
      sign are all ignored. */
  lemma IgnoraOutrosCaracteres(a: string, x: string, b: string)
    requires forall i :: 0 <= i < |x| ==> !Mantido(x[i])
    ensures ValorNormalizado(a + x + b) == ValorNormalizado(a + b)
  {
    SomenteDigitosEVirgulasConcat(a + x, b);
    SomenteDigitosEVirgulasConcat(a, x);
    SomenteDigitosEVirgulasConcat(a, b);
    SemMantidosVazio(x);
    assert SomenteDigitosEVirgulas(a) + [] == SomenteDigitosEVirgulas(a);
    assert SomenteDigitosEVirgulas(a + x + b) == SomenteDigitosEVirgulas(a + b);
  }

  lemma {:induction false} SemMantidosVazio(x: string)
    requires forall i :: 0 <= i < |x| ==> !Mantido(x[i])
    ensures SomenteDigitosEVirgulas(x) == []
  {
    if x != [] {
      SemMantidosVazio(x[..|x| - 1]);
    }
  }

  // ---------------------------------------------------------------------
  // Reading integers and decimals
  // ---------------------------------------------------------------------

  /** The run of leading digits of `d + r` is all of `d` when `r` does not
      start with a digit. */
  lemma {:induction false} DigitosIniciaisConcat(d: string, r: string)
    requires forall i :: 0 <= i < |d| ==> Digito(d[i])
    requires r == [] || !Digito(r[0])
    ensures DigitosIniciais(d + r) == |d|
  {
    if d != [] {
      assert (d + r)[1..] == d[1..] + r;
      DigitosIniciaisConcat(d[1..], r);
    } else {
      assert d + r == r;
    }
  }

  /** A run of digits reads as the number it denotes. */
  lemma LerInteiro(d: string)
    requires |d| > 0 && forall i :: 0 <= i < |d| ==> Digito(d[i])
    ensures LerDecimal(d) == Some(ValorDosDigitos(d) as real)
  {
    DigitosIniciaisConcat(d, []);
    assert d + [] == d;
    assert d[..|d|] == d;
  }

  /** Digits, a point and digits read as integer part plus fraction, and
      reading stops there: whatever follows a non-digit is ignored (so
      typing "1,234,56" with a comma for thousands gives "1.234,56" once the
      first comma is replaced, which reads as 1.234). Either run of digits
      may be empty, but not both: ".50" reads as 0.5 and "7." as 7. */
  lemma LerComFracao(d: string, f: string, resto: string)
    requires |d| > 0 || |f| > 0
    requires forall i :: 0 <= i < |d| ==> Digito(d[i])
    requires forall i :: 0 <= i < |f| ==> Digito(f[i])
    requires forall i :: 0 <= i < |resto| ==> Normalizado(resto[i])
    requires resto == [] || !Digito(resto[0])
    ensures LerDecimal(d + ['.'] + f + resto) == Some(Decimal(ValorDosDigitos(d), ValorDosDigitos(f), |f|))
  {
    var s := d + ['.'] + f + resto;
    var k := |d|;
    LiteralNormalizado(d, f, resto);
    DigitosAntesDoPonto(d, f, resto);
    DigitosDepoisDoPonto(d, f, resto);
    LerDecimalPorPartes(s, k, |f|);
  }

  lemma LiteralNormalizado(d: string, f: string, resto: string)
    requires forall i :: 0 <= i < |d| ==> Digito(d[i])
    requires forall i :: 0 <= i < |f| ==> Digito(f[i])
    requires forall i :: 0 <= i < |resto| ==> Normalizado(resto[i])
    ensures var s := d + ['.'] + f + resto;
            forall i :: 0 <= i < |s| ==> Normalizado(s[i])
  {
    var s := d + ['.'] + f + resto;
    var k := |d|;
    forall i | 0 <= i < |s| ensures Normalizado(s[i]) {
      if i < k {
        assert s[i] == d[i];
      } else if k < i < k + 1 + |f| {
        assert s[i] == f[i - k - 1];
      } else if i >= k + 1 + |f| {
        assert s[i] == resto[i - k - 1 - |f|];
      }
    }
  }

  lemma DigitosAntesDoPonto(d: string, f: string, resto: string)
    requires forall i :: 0 <= i < |d| ==> Digito(d[i])
    ensures var s := d + ['.'] + f + resto;
            DigitosIniciais(s) == |d| && s[|d|] == '.' && s[..|d|] == d
  {
    var s := d + ['.'] + f + resto;
    assert s == d + (['.'] + f + resto);
    DigitosIniciaisConcat(d, ['.'] + f + resto);
  }

  lemma DigitosDepoisDoPonto(d: string, f: string, resto: string)
    requires forall i :: 0 <= i < |f| ==> Digito(f[i])
    requires resto == [] || !Digito(resto[0])
    ensures var s := d + ['.'] + f + resto;
            DigitosIniciais(s[|d| + 1..]) == |f| && s[|d| + 1..][..|f|] == f
  {
    var s := d + ['.'] + f + resto;
    assert s[|d| + 1..] == f + resto;
    DigitosIniciaisConcat(f, resto);
  }

  /** The fraction case of `LerDecimal`, unfolded. */
  lemma LerDecimalPorPartes(s: string, k: nat, m: nat)
    requires forall i :: 0 <= i < |s| ==> Normalizado(s[i])
    requires DigitosIniciais(s) == k && k < |s| && s[k] == '.'
    requires DigitosIniciais(s[k + 1..]) == m && (k > 0 || m > 0)
    ensures LerDecimal(s) == Some(Decimal(ValorDosDigitos(s[..k]), ValorDosDigitos(s[k + 1..][..m]), m))
  {
  }

  /** Digits followed by a comma: the comma is the first one. */
  lemma {:induction false} VirgulaAposDigitos(d: string, r: string)
    requires forall i :: 0 <= i < |d| ==> Digito(d[i])
    ensures PrimeiraVirgulaParaPonto(d + [','] + r) == d + ['.'] + r
  {
    var s := d + [','] + r;
    if d == [] {
      assert s == [','] + r;
      assert s[1..] == r;
    } else {
      assert s[0] == d[0];
      assert s[1..] == d[1..] + [','] + r;
      VirgulaAposDigitos(d[1..], r);
      assert d + ['.'] + r == [d[0]] + (d[1..] + ['.'] + r);
    }
  }

  // ---------------------------------------------------------------------
  // Round trip with the displayed amount
  // ---------------------------------------------------------------------

  function DigitoDe(d: nat): (c: char)
    requires d < 10
    ensures Digito(c) && ValorDigito(c) == d
  {
    (('0' as int) + d) as char
  }

  /** The decimal numeral of `n`, without leading zeros; it reads back as
      `n`. */
  function DigitosDe(n: nat): (s: string)
    ensures |s| >= 1
    ensures forall i :: 0 <= i < |s| ==> Digito(s[i])
    ensures ValorDosDigitos(s) == n
  {
    if n < 10 then [DigitoDe(n)]
    else
      var s := DigitosDe(n / 10) + [DigitoDe(n % 10)];
      assert s[..|s| - 1] == DigitosDe(n / 10);
      s
  }

  /** The two centavo digits of an amount. */
  function Centavos(centavos: nat): (s: string)
    ensures |s| == 2 && Digito(s[0]) && Digito(s[1])
    ensures ValorDosDigitos(s) == centavos % 100
  {
    var x := centavos % 100;
    var s := [DigitoDe(x / 10), DigitoDe(x % 10)];
    assert s[..1] == [s[0]] && [s[0]][..0] == [];
    assert ValorDosDigitos([s[0]]) == x / 10;
    s
  }

  /** An amount in centavos as the statement displays it, without the
      "R$ " prefix and the thousands points (which `IgnoraOutrosCaracteres`
      shows make no difference): the reais, a comma, two centavo digits. */
  function ComoExibido(centavos: nat): string {
    DigitosDe(centavos / 100) + [','] + Centavos(centavos)
  }

  /** The rewrites leave a literal of digits, a comma and digits unchanged
      except for its comma, which becomes the decimal point. */
  lemma ReescritaLiteral(d: string, f: string)
    requires forall i :: 0 <= i < |d| ==> Digito(d[i])
    requires forall i :: 0 <= i < |f| ==> Digito(f[i])
    ensures PrimeiraVirgulaParaPonto(SomenteDigitosEVirgulas(d + [','] + f)) == d + ['.'] + f
  {
    LiteralMantido(d, f);
    VirgulaAposDigitos(d, f);
  }

  lemma LiteralMantido(d: string, f: string)
    requires forall i :: 0 <= i < |d| ==> Digito(d[i])
    requires forall i :: 0 <= i < |f| ==> Digito(f[i])
    ensures SomenteDigitosEVirgulas(d + [','] + f) == d + [','] + f
  {
    SomenteDigitosEVirgulasConcat(d + [','], f);
    SomenteDigitosEVirgulasUm(d, ',');
    assert SomenteDigitosEVirgulas(d) == d;
    assert SomenteDigitosEVirgulas(f) == f;
  }

  /** A typed literal of digits, a comma and digits, with at least one digit,
      pays its integer part plus its fraction. Either run of digits may be
      empty: ",50" pays 0.50 and "7," pays 7. */
  lemma ValorDoLiteral(d: string, f: string)
    requires |d| > 0 || |f| > 0
    requires forall i :: 0 <= i < |d| ==> Digito(d[i])
    requires forall i :: 0 <= i < |f| ==> Digito(f[i])
    ensures ValorNormalizado(d + [','] + f) == Some(Decimal(ValorDosDigitos(d), ValorDosDigitos(f), |f|))
  {
    ReescritaLiteral(d, f);
    LerComFracao(d, f, []);
    assert d + ['.'] + f + [] == d + ['.'] + f;
  }

  /** The rewrites turn the displayed amount's comma into the decimal point
      before the centavos. */
  lemma ReescritaComoExibido(centavos: nat)
    ensures PrimeiraVirgulaParaPonto(SomenteDigitosEVirgulas(ComoExibido(centavos)))
            == DigitosDe(centavos / 100) + ['.'] + Centavos(centavos)
  {
    ReescritaLiteral(DigitosDe(centavos / 100), Centavos(centavos));
  }

  /** Typing back the amount as the statement shows it pays exactly that
      amount. */
  lemma ValorComoExibido(centavos: nat)
    ensures ValorNormalizado(ComoExibido(centavos)) == Some((centavos as real) / 100.0)
  {
    ValorDoLiteral(DigitosDe(centavos / 100), Centavos(centavos));
    DecimalDeCentavos(centavos);
  }

  lemma DecimalDeCentavos(centavos: nat)
    ensures Decimal(centavos / 100, centavos % 100, 2) == (centavos as real) / 100.0
  {
    assert Pot10(2) == 100;
    var q, r := centavos / 100, centavos % 100;
    assert centavos == q * 100 + r;
    assert (q as real) + (r as real) / 100.0 == (centavos as real) / 100.0;
  }

  // ---------------------------------------------------------------------
  // What the form accepts
  // ---------------------------------------------------------------------

  /** A prefix with no digit and no comma, such as "R$ " or "-R$ ", is
      dropped: a negative amount is paid as the positive one. */
  lemma PrefixoIgnorado(prefixo: string, centavos: nat)
    requires forall i :: 0 <= i < |prefixo| ==> !Mantido(prefixo[i])
    ensures ValorNormalizado(prefixo + ComoExibido(centavos)) == Some((centavos as real) / 100.0)
  {
    var t := ComoExibido(centavos);
    assert [] + prefixo + t == prefixo + t;
    assert [] + t == t;
    IgnoraOutrosCaracteres([], prefixo, t);
    ValorComoExibido(centavos);
  }

  /** The submit guard only tests that the field is non-empty: a displayed
      amount of zero is read as 0 and reaches the payment call. */
  lemma ZeroAceito(centavos: nat)
    ensures ValorNormalizado(ComoExibido(centavos)) == Some(0.0) <==> centavos == 0
  {
    ValorComoExibido(centavos);
  }
}
