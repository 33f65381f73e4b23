/** Java's 32-bit `int` and the text conversions the parameter table relies on:
    `Integer.parseInt`, `Integer.toString` and `Double.parseDouble`. */
module Texto {
  import opened Wrappers

  const MIN_INT: int := -0x8000_0000
  const MAX_INT: int := 0x7fff_ffff

  /** The values of a Java `int` (and of a non-null `Integer`). */
  type Int32 = x: int | MIN_INT <= x <= MAX_INT

  /** `x++` on a Java `int`: wraps from MAX_INT to MIN_INT. */
  function Inc32(x: Int32): Int32
  {
    if x == MAX_INT then MIN_INT else x + 1
  }

  /** The value of a counter after `n` increments. */
  function Avanzar(x: Int32, n: nat): Int32
  {
    if n == 0 then x else Inc32(Avanzar(x, n - 1))
  }

  /** Without overflow, `n` increments add `n`. */
  lemma {:induction false} AvanzarSinDesborde(x: Int32, n: nat)
    requires x + n <= MAX_INT
    ensures Avanzar(x, n) == x + n
  {
    if n > 0 {
      AvanzarSinDesborde(x, n - 1);
    }
  }

  // ---------------------------------------------------------------- digits

  predicate EsDigito(c: char)
  {
    '0' <= c <= '9'
  }

  predicate SoloDigitos(s: string)
  {
    forall i | 0 <= i < |s| :: EsDigito(s[i])
  }

  function ValorDigito(c: char): nat
    requires EsDigito(c)
  {
    c as int - '0' as int
  }

  function CharDigito(d: nat): char
    requires d < 10
  {
    ('0' as int + d) as char
  }

  /** The number a string of decimal digits denotes (most significant first). */
  function ValorDigitos(s: string): nat
    requires SoloDigitos(s)
  {
    if |s| == 0 then 0 else 10 * ValorDigitos(s[..|s| - 1]) + ValorDigito(s[|s| - 1])
  }

  /** Shortest decimal representation of a natural number. */
  function NatATexto(n: nat): string
  {
    if n < 10 then [CharDigito(n)] else NatATexto(n / 10) + [CharDigito(n % 10)]
  }

  /** `Integer.toString(i)`: a minus sign for negative values, then the digits. */
  function IntToString(i: int): string
  {
    if i < 0 then "-" + NatATexto(-i) else NatATexto(i)
  }

  /** `Integer.parseInt(s)` on ASCII text: an optional sign, at least one
      digit, nothing else, and a value that fits in an `int`; `None` where
      Java throws `NumberFormatException`. */
  function ParseInt(s: string): Option<Int32>
  {
    if |s| == 0 then None
    else
      var cuerpo := if s[0] == '-' || s[0] == '+' then s[1..] else s;
      if |cuerpo| == 0 || !SoloDigitos(cuerpo) then None
      else
        var v := if s[0] == '-' then -(ValorDigitos(cuerpo) as int) else ValorDigitos(cuerpo);
        if MIN_INT <= v <= MAX_INT then Some(v) else None
  }

  lemma {:induction false} DigitosDeNat(n: nat)
    ensures |NatATexto(n)| > 0 && SoloDigitos(NatATexto(n))
    ensures ValorDigitos(NatATexto(n)) == n
  {
    if n >= 10 {
      DigitosDeNat(n / 10);
      var s := NatATexto(n);
      assert s[..|s| - 1] == NatATexto(n / 10);
    }
  }

  /** Reading back a counter that was written with `Integer.toString` gives the
      same value. */
  lemma ParseIntDeToString(i: Int32)
    ensures ParseInt(IntToString(i)) == Some(i)
  {
    var m: nat := if i < 0 then -(i as int) else i;
    DigitosDeNat(m);
    var s := IntToString(i);
    if i < 0 {
      assert s[1..] == NatATexto(m);
    } else {
      assert EsDigito(s[0]);
    }
  }

  /** Distinct counter values are written as distinct texts. */
  lemma IntToStringInyectiva(a: Int32, b: Int32)
    requires IntToString(a) == IntToString(b)
    ensures a == b
  {
    ParseIntDeToString(a);
    ParseIntDeToString(b);
  }

  // ---------------------------------------------------------------- decimals

  /** `String.trim`: drops leading and trailing characters up to U+0020. */
  function Recortar(s: string): string
  {
    RecortarFin(RecortarInicio(s))
  }

  function RecortarInicio(s: string): string
  {
    if |s| > 0 && s[0] <= ' ' then RecortarInicio(s[1..]) else s
  }

  function RecortarFin(s: string): string
  {
    if |s| > 0 && s[|s| - 1] <= ' ' then RecortarFin(s[..|s| - 1]) else s
  }

  /** Index of the first '.' in `s`, or `|s|` when there is none. */
  function PosPunto(s: string): (k: nat)
    ensures k <= |s|
    ensures forall i | 0 <= i < k :: s[i] != '.'
    ensures k < |s| ==> s[k] == '.'
  {
    PosPuntoDesde(s, 0)
  }

  /** Index of the first '.' in `s` at or after `i`, or `|s|`. */
  function PosPuntoDesde(s: string, i: nat): (k: nat)
    requires i <= |s|
    ensures i <= k <= |s|
    ensures forall j | i <= j < k :: s[j] != '.'
    ensures k < |s| ==> s[k] == '.'
    decreases |s| - i
  {
    if i == |s| || s[i] == '.' then i else PosPuntoDesde(s, i + 1)
  }

  function Pow10(k: nat): (p: nat)
    ensures p > 0
  {
    if k == 0 then 1 else 10 * Pow10(k - 1)
  }

  /** The plain decimal forms `Double.parseDouble` accepts, read exactly:
      surrounding blanks, an optional sign, digits with at most one '.', and at
      least one digit. `None` where Java throws `NumberFormatException`. */
  function ParseDecimal(s: string): Option<real>
  {
    var t := Recortar(s);
    if |t| == 0 then None
    else
      var cuerpo := if t[0] == '-' || t[0] == '+' then t[1..] else t;
      match LeerSinSigno(cuerpo)
      case None => None
      case Some(v) => Some(if t[0] == '-' then -v else v)
  }

  /** The unsigned part of a plain decimal: digits with at most one '.', and
      at least one digit. */
  function LeerSinSigno(cuerpo: string): Option<real>
  {
    var p := PosPunto(cuerpo);
    var entero := cuerpo[..p];
    var fraccion := if p < |cuerpo| then cuerpo[p + 1..] else [];
    if !SoloDigitos(entero) || !SoloDigitos(fraccion) || |entero| + |fraccion| == 0 then None
    else Some(ValorDigitos(entero) as real + ValorDigitos(fraccion) as real / Pow10(|fraccion|) as real)
  }

  /** A tax rate stored as the text of an integer reads back as that number. */
  lemma ParseDecimalDeEntero(i: int)
    ensures ParseDecimal(IntToString(i)) == Some(i as real)
  {
    var m: nat := if i < 0 then -(i as int) else i;
    DigitosDeNat(m);
    var s := IntToString(i);
    SinBlancos(s);
    if i < 0 {
      assert s[1..] == NatATexto(m);
    } else {
      assert EsDigito(s[0]);
    }
    LeerDigitos(NatATexto(m));
  }

  /** A plain string of digits reads as the number it denotes. */
  lemma LeerDigitos(cuerpo: string)
    requires |cuerpo| > 0 && SoloDigitos(cuerpo)
    ensures LeerSinSigno(cuerpo) == Some(ValorDigitos(cuerpo) as real)
  {
    SinPunto(cuerpo);
    assert cuerpo[..|cuerpo|] == cuerpo;
  }

  lemma SinPunto(s: string)
    requires SoloDigitos(s)
    ensures PosPunto(s) == |s|
  {
  }

  lemma SinBlancos(s: string)
    requires |s| > 0 && forall i | 0 <= i < |s| :: s[i] > ' '
    ensures Recortar(s) == s
  {
  }
}
