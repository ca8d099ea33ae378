/** Text operations the source takes from its languages' libraries: Python's `str.strip`,
    JavaScript's `trim`, `toLowerCase`, `includes` and `parseInt`, Python's `str.join`,
    and the decimal rendering of a non-negative integer in an f-string. */
module Texto {
  import opened Wrappers

  /** The whitespace that `strip`/`trim` remove (the ASCII set and the no-break space). */
  predicate EsEspacio(c: char) {
    c == ' ' || c == '\t' || c == '\n' || c == '\r' || c == '\U{B}' || c == '\U{C}' || c == '\U{A0}'
  }

  predicate EsDigito(c: char) {
    '0' <= c <= '9'
  }

  function QuitarIzquierda(s: string): (r: string)
    ensures |r| <= |s| && r == s[|s| - |r|..]
    ensures r == [] || !EsEspacio(r[0])
    ensures forall i :: 0 <= i < |s| - |r| ==> EsEspacio(s[i])
  {
    if s != [] && EsEspacio(s[0]) then QuitarIzquierda(s[1..]) else s
  }

  function QuitarDerecha(s: string): (r: string)
    ensures |r| <= |s| && r == s[..|r|]
    ensures r == [] || !EsEspacio(r[|r| - 1])
    ensures forall i :: |r| <= i < |s| ==> EsEspacio(s[i])
  {
    if s != [] && EsEspacio(s[|s| - 1]) then QuitarDerecha(s[..|s| - 1]) else s
  }

  /** `str.strip()` / `String.prototype.trim()`. */
  function Recortar(s: string): string {
    QuitarDerecha(QuitarIzquierda(s))
  }

  /** Trimming leaves nothing exactly when the text is all whitespace. */
  lemma RecortarVacio(s: string)
    ensures Recortar(s) == [] <==> forall i :: 0 <= i < |s| ==> EsEspacio(s[i])
  {
  }

  /** `r` sits at position `i` of `s`, only whitespace lies before and after it, and it
      neither starts nor ends with whitespace. */
  predicate RecorteEn(r: string, s: string, i: int) {
    && 0 <= i <= |s| - |r| && s[i..i + |r|] == r
    && (forall k | 0 <= k < i :: EsEspacio(s[k]))
    && (forall k | i + |r| <= k < |s| :: EsEspacio(s[k]))
    && (r != [] ==> !EsEspacio(r[0]) && !EsEspacio(r[|r| - 1]))
  }

  /** `r` is `s` with its leading and trailing whitespace removed, and nothing else. */
  predicate EsRecorte(r: string, s: string) {
    exists i | 0 <= i <= |s| - |r| :: RecorteEn(r, s, i)
  }

  /** Trimming removes exactly the whitespace at both ends. */
  lemma RecortarEsRecorte(s: string)
    ensures EsRecorte(Recortar(s), s)
  {
    var t := QuitarIzquierda(s);
    var r := QuitarDerecha(t);
    var i := |s| - |t|;
    assert s[i..i + |r|] == r;
    forall k | i + |r| <= k < |s| ensures EsEspacio(s[k]) {
      assert s[k] == t[k - i];
    }
    assert r != [] ==> r[0] == t[0];
    assert RecorteEn(r, s, i);
  }

  /** One character of `toLowerCase`: ASCII and Latin-1 capitals (which cover Spanish). */
  function Minuscula(c: char): (r: char)
    ensures 'A' <= c <= 'Z' ==> r as int == c as int + 32
    ensures !('A' <= c <= 'Z') && !('\U{C0}' <= c <= '\U{DE}') ==> r == c
  {
    if 'A' <= c <= 'Z' || ('\U{C0}' <= c <= '\U{DE}' && c != '\U{D7}') then (c as int + 32) as char else c
  }

  function Minusculas(s: string): (r: string)
    ensures |r| == |s|
    ensures forall i :: 0 <= i < |s| ==> r[i] == Minuscula(s[i])
  {
    if s == [] then [] else Minusculas(s[..|s| - 1]) + [Minuscula(s[|s| - 1])]
  }

  /** `texto.includes(patron)`. */
  predicate Contiene(texto: string, patron: string) {
    exists i | 0 <= i <= |texto| - |patron| :: ApareceEn(texto, patron, i)
  }

  predicate ApareceEn(texto: string, patron: string, i: int) {
    0 <= i <= |texto| - |patron| && texto[i..i + |patron|] == patron
  }

  /** Python's `sep.join(partes)`. */
  function Unir(sep: string, partes: seq<string>): string
  {
    if partes == [] then ""
    else if |partes| == 1 then partes[0]
    else Unir(sep, partes[..|partes| - 1]) + sep + partes[|partes| - 1]
  }

  function Digito(d: nat): (c: char)
    requires d < 10
    ensures EsDigito(c) && c as int - '0' as int == d
  {
    (d + '0' as int) as char
  }

  function ValorDigito(c: char): nat
    requires EsDigito(c)
  {
    c as int - '0' as int
  }

  predicate TodoDigitos(s: string) {
    forall i :: 0 <= i < |s| ==> EsDigito(s[i])
  }

  /** The number a string of decimal digits denotes. */
  function ValorDigitos(s: string): nat
    requires TodoDigitos(s)
  {
    if s == [] then 0 else 10 * ValorDigitos(s[..|s| - 1]) + ValorDigito(s[|s| - 1])
  }

  /** The decimal text of a non-negative integer, as `f"{n}"` prints it. */
  function Decimal(n: nat): (r: string)
    ensures r != [] && TodoDigitos(r)
  {
    if n < 10 then [Digito(n)] else Decimal(n / 10) + [Digito(n % 10)]
  }

  /** Printing a number in decimal and reading the digits back gives the number. */
  lemma {:induction false} ValorDecimal(n: nat)
    ensures ValorDigitos(Decimal(n)) == n
  {
    if n >= 10 {
      ValorDecimal(n / 10);
      var r := Decimal(n);
      assert r[..|r| - 1] == Decimal(n / 10);
    }
  }

  /** The decimal text of any integer, with a leading minus when negative. */
  function Entero(i: int): (r: string)
    ensures r != []
  {
    if i >= 0 then Decimal(i) else "-" + Decimal(-i)
  }

  /** The longest prefix of decimal digits. */
  function PrefijoDigitos(s: string): (r: string)
    ensures |r| <= |s| && r == s[..|r|] && TodoDigitos(r)
    ensures |r| < |s| ==> !EsDigito(s[|r|])
  {
    if s != [] && EsDigito(s[0]) then [s[0]] + PrefijoDigitos(s[1..]) else []
  }

  lemma {:induction false} PrefijoDigitosDe(d: string, resto: string)
    requires TodoDigitos(d)
    requires resto == [] || !EsDigito(resto[0])
    ensures PrefijoDigitos(d + resto) == d
  {
    if d != [] {
      assert (d + resto)[1..] == d[1..] + resto;
      PrefijoDigitosDe(d[1..], resto);
    }
  }

  /** `parseInt(s)` in base ten: leading whitespace, an optional sign, then the longest run
      of digits; `None` stands for `NaN` (no digit after the sign). */
  function ParseInt(s: string): (r: Option<int>)
    ensures r.None? <==> PrefijoDigitos(
      var t := QuitarIzquierda(s);
      if t != [] && (t[0] == '-' || t[0] == '+') then t[1..] else t) == []
  {
    var t := QuitarIzquierda(s);
    var signo := t != [] && (t[0] == '-' || t[0] == '+');
    var d := PrefijoDigitos(if signo then t[1..] else t);
    var v: int := if d == [] then 0 else ValorDigitos(d);
    if d == [] then None
    else if signo && t[0] == '-' then Some(-v)
    else Some(v)
  }

  /** `parseInt` reads back a non-negative number printed in decimal, whatever non-digit text
      follows it. */
  lemma ParseIntDecimal(n: nat, resto: string)
    requires resto == [] || !EsDigito(resto[0])
    ensures ParseInt(Decimal(n) + resto) == Some(n)
  {
    var s := Decimal(n) + resto;
    assert s[0] == Decimal(n)[0];
    assert QuitarIzquierda(s) == s;
    PrefijoDigitosDe(Decimal(n), resto);
    ValorDecimal(n);
  }

  /** A text that does not start with whitespace, a sign or a digit parses to `NaN`. */
  lemma ParseIntNoNumerico(s: string)
    requires s != [] && !EsEspacio(s[0]) && !EsDigito(s[0]) && s[0] != '-' && s[0] != '+'
    ensures ParseInt(s).None?
  {
  }
}
