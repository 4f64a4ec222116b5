/**
 * The two JavaScript conversions the hook relies on, restricted to integers:
 * `Number(raw)` followed by `Number.isFinite`, and `String(n)`.
 *
 * `Number` trims JavaScript white space and line terminators, reads an empty
 * remainder as 0, and otherwise accepts an optional sign followed by decimal
 * digits. A magnitude that a double rounds to infinity is non-finite. Every
 * other text (letters, "Infinity", fractions, exponents, hex) yields `None`.
 */
module JsNumber {
  import opened Wrappers

  /** Smallest magnitude that rounds to an infinite double: 2^1024 - 2^970. */
  const INFINITY_THRESHOLD: int := 0xFFFF_FFFF_FFFF_FC00_0000_0000_0000_0000_0000_0000_0000_0000_0000_0000_0000_0000_0000_0000_0000_0000_0000_0000_0000_0000_0000_0000_0000_0000_0000_0000_0000_0000_0000_0000_0000_0000_0000_0000_0000_0000_0000_0000_0000_0000_0000_0000_0000_0000_0000_0000_0000_0000_0000_0000_0000_0000_0000_0000_0000_0000_0000_0000_0000_0000

  predicate IsDigit(c: char) {
    '0' <= c <= '9'
  }

  predicate AllDigits(s: string) {
    forall i :: 0 <= i < |s| ==> IsDigit(s[i])
  }

  function DigitChar(d: nat): (c: char)
    requires d < 10
    ensures IsDigit(c) && c as int - '0' as int == d
  {
    ('0' as int + d) as char
  }

  /** The value of a run of decimal digits, most significant first. */
  function DigitsValue(s: string): nat
    requires AllDigits(s)
  {
    if s == [] then 0
    else DigitsValue(s[..|s| - 1]) * 10 + (s[|s| - 1] as int - '0' as int)
  }

  /** White space and line terminators that `Number` ignores around its input. */
  predicate IsJsWhitespace(c: char) {
    c == '\t' || c == '\n' || c == '\U{000B}' || c == '\U{000C}' || c == '\r'
    || c == ' ' || c == '\U{00A0}' || c == '\U{1680}'
    || ('\U{2000}' <= c <= '\U{200A}')
    || c == '\U{2028}' || c == '\U{2029}' || c == '\U{202F}' || c == '\U{205F}'
    || c == '\U{3000}' || c == '\U{FEFF}'
  }

  predicate AllJsWhitespace(s: string) {
    forall i :: 0 <= i < |s| ==> IsJsWhitespace(s[i])
  }

  /** `s` without its leading white space. */
  function TrimStart(s: string): (r: string)
    ensures r == [] || !IsJsWhitespace(r[0])
    ensures |r| <= |s| && r == s[|s| - |r|..]
    ensures AllJsWhitespace(s[..|s| - |r|])
  {
    if s != [] && IsJsWhitespace(s[0]) then TrimStart(s[1..]) else s
  }

  /** `s` without its trailing white space. */
  function TrimEnd(s: string): (r: string)
    ensures r == [] || !IsJsWhitespace(r[|r| - 1])
    ensures |r| <= |s| && r == s[..|r|]
    ensures AllJsWhitespace(s[|r|..])
  {
    if s != [] && IsJsWhitespace(s[|s| - 1]) then TrimEnd(s[..|s| - 1]) else s
  }

  /** An integer as `Number` sees it once the text is known to be finite. */
  function Finite(v: int): Option<int> {
    if -INFINITY_THRESHOLD < v < INFINITY_THRESHOLD then Some(v) else None
  }

  /** `TrimString(raw, start+end)`: white space removed from both ends. */
  function Trim(s: string): (r: string)
    ensures r == [] || (!IsJsWhitespace(r[0]) && !IsJsWhitespace(r[|r| - 1]))
  {
    TrimEnd(TrimStart(s))
  }

  /** An optional sign followed by at least one decimal digit, or `None`. */
  function SignedDigits(t: string): (r: Option<int>)
    requires t != []
    ensures r.Some? ==> -INFINITY_THRESHOLD < r.value < INFINITY_THRESHOLD
  {
    var body := if t[0] == '-' || t[0] == '+' then t[1..] else t;
    if body == [] || !AllDigits(body) then None
    else if t[0] == '-' then Finite(-(DigitsValue(body) as int))
    else Finite(DigitsValue(body))
  }

  /**
   * `Number(raw)` when the result is a finite integer, `None` when it is NaN
   * or infinite.
   */
  function Number(raw: string): (r: Option<int>)
    ensures r.Some? ==> -INFINITY_THRESHOLD < r.value < INFINITY_THRESHOLD
  {
    var t := Trim(raw);
    if t == [] then Some(0) else SignedDigits(t)
  }

  /** Decimal digits of a natural number, without leading zeros. */
  function ShowNat(n: nat): (r: string)
    ensures r != [] && AllDigits(r)
  {
    if n < 10 then [DigitChar(n)] else ShowNat(n / 10) + [DigitChar(n % 10)]
  }

  /**
   * `String(n)` for an integer: a minus sign for negative values, then the
   * digits. JavaScript switches to exponent notation from 10^21 on; the model
   * only ever renders clamped panel widths, far below that.
   */
  function Show(n: int): (r: string)
    ensures r != []
    ensures n >= 0 ==> AllDigits(r)
    ensures n < 0 ==> r[0] == '-' && AllDigits(r[1..])
  {
    if n < 0 then "-" + ShowNat(-n) else ShowNat(n)
  }

  lemma {:induction false} ShowNatDigits(n: nat)
    ensures ShowNat(n) != [] && AllDigits(ShowNat(n))
    ensures DigitsValue(ShowNat(n)) == n
  {
    if n >= 10 {
      ShowNatDigits(n / 10);
      var s := ShowNat(n);
      assert s[..|s| - 1] == ShowNat(n / 10);
    }
  }

  lemma TrimmedText(s: string)
    requires s != [] && !IsJsWhitespace(s[0]) && !IsJsWhitespace(s[|s| - 1])
    ensures Trim(s) == s
  {
  }

  /** A rendered integer has no white space to trim. */
  lemma ShowIsTrimmed(n: int)
    ensures Show(n) != [] && Trim(Show(n)) == Show(n)
  {
    ShowNatDigits(if n < 0 then -n else n);
    var s := Show(n);
    assert IsDigit(s[|s| - 1]);
    assert s[0] == '-' || IsDigit(s[0]);
    TrimmedText(s);
  }

  /** Rendering an integer and reading it back returns the same integer. */
  lemma NumberOfShow(n: int)
    requires -INFINITY_THRESHOLD < n < INFINITY_THRESHOLD
    ensures Show(n) != []
    ensures Number(Show(n)) == Some(n)
  {
    ShowIsTrimmed(n);
    if n < 0 {
      ShowNatDigits(-n);
      assert Show(n)[1..] == ShowNat(-n);
    } else {
      ShowNatDigits(n);
    }
  }

  lemma {:induction false} TrimStartSkipsPadding(w: string, u: string)
    requires AllJsWhitespace(w)
    ensures TrimStart(w + u) == TrimStart(u)
    decreases |w|
  {
    if w == [] {
      assert w + u == u;
    } else {
      assert (w + u)[1..] == w[1..] + u;
      TrimStartSkipsPadding(w[1..], u);
    }
  }

  lemma {:induction false} TrimEndSkipsPadding(u: string, w: string)
    requires AllJsWhitespace(w)
    ensures TrimEnd(u + w) == TrimEnd(u)
    decreases |w|
  {
    if w == [] {
      assert u + w == u;
    } else {
      var v := u + w;
      assert v[..|v| - 1] == u + w[..|w| - 1];
      TrimEndSkipsPadding(u, w[..|w| - 1]);
    }
  }

  /** Trimming the front of `t + w` reaches into `w` only when `t` is all white space. */
  lemma {:induction false} TrimStartOfConcat(t: string, w: string)
    ensures TrimStart(t + w) == if TrimStart(t) == [] then TrimStart(w) else TrimStart(t) + w
    decreases |t|
  {
    if t == [] {
      assert t + w == w;
    } else if IsJsWhitespace(t[0]) {
      assert (t + w)[1..] == t[1..] + w;
      TrimStartOfConcat(t[1..], w);
    }
  }

  lemma TrimIgnoresPadding(lead: string, t: string, trail: string)
    requires AllJsWhitespace(lead) && AllJsWhitespace(trail)
    ensures Trim(lead + (t + trail)) == Trim(t)
  {
    TrimStartSkipsPadding(lead, t + trail);
    TrimStartOfConcat(t, trail);
    if TrimStart(t) == [] {
      TrimStartSkipsPadding(trail, []);
      assert trail + [] == trail;
    } else {
      TrimEndSkipsPadding(TrimStart(t), trail);
    }
  }

  /** White space before and after a text does not change how `Number` reads it. */
  lemma NumberIgnoresPadding(lead: string, t: string, trail: string)
    requires AllJsWhitespace(lead) && AllJsWhitespace(trail)
    ensures Number(lead + t + trail) == Number(t)
  {
    assert lead + t + trail == lead + (t + trail);
    TrimIgnoresPadding(lead, t, trail);
  }

  /** How `Number` reads a few representative stored texts. */
  lemma NumberOfDigitsExample()
    ensures Number("9999") == Some(9999)
  {
    assert Show(9999) == "9999";
    NumberOfShow(9999);
  }

  lemma NumberOfBlankExample()
    ensures Number("   ") == Some(0)
  {
  }

  /** Text that does not start with a sign or a digit is NaN. */
  lemma NumberOfWord(t: string)
    requires t != [] && !IsJsWhitespace(t[0]) && !IsJsWhitespace(t[|t| - 1])
    requires t[0] != '-' && t[0] != '+' && !IsDigit(t[0])
    ensures Number(t) == None
  {
  }

  lemma NumberOfWordExample()
    ensures Number("Infinity") == None
  {
    var t := "Infinity";
    assert t[0] == 'I' && t[|t| - 1] == 'y';
    NumberOfWord(t);
  }
}
