/**
 The few PHP string behaviours the core depends on: `trim`, the falsy
 strings of `empty()` and `!$x`, `explode("\n", ...)`, and the decimal
 spelling of an id inside a channel name such as `board.42`.
 */
module Text {
  import opened Wrappers

  /** The characters PHP's `trim` strips by default: space, tab, newline,
      carriage return, NUL and vertical tab. */
  predicate IsTrimChar(ch: char) {
    ch == ' ' || ch == '\t' || ch == '\n' || ch == '\r' || ch == '\0' || ch == '\U{000B}'
  }

  predicate AllTrimChars(s: string) {
    forall i | 0 <= i < |s| :: IsTrimChar(s[i])
  }

  /** `ltrim`: drops the leading trim characters. */
  function TrimLeft(s: string): (r: string)
    ensures |r| <= |s| && r == s[|s| - |r|..]
    ensures AllTrimChars(s[..|s| - |r|])
    ensures r == [] || !IsTrimChar(r[0])
  {
    if |s| > 0 && IsTrimChar(s[0]) then
      var r := TrimLeft(s[1..]);
      assert s[..|s| - |r|] == [s[0]] + s[1..][..|s[1..]| - |r|];
      r
    else s
  }

  /** `rtrim`: drops the trailing trim characters. */
  function TrimRight(s: string): (r: string)
    ensures |r| <= |s| && r == s[..|r|]
    ensures AllTrimChars(s[|r|..])
    ensures r == [] || !IsTrimChar(r[|r| - 1])
  {
    if |s| > 0 && IsTrimChar(s[|s| - 1]) then
      var r := TrimRight(s[..|s| - 1]);
      assert s[|r|..] == s[..|s| - 1][|r|..] + [s[|s| - 1]];
      r
    else s
  }

  /** `trim`: the text between the leading and trailing trim characters. */
  function Trim(s: string): (r: string)
    ensures r == [] || (!IsTrimChar(r[0]) && !IsTrimChar(r[|r| - 1]))
    ensures exists i, j | 0 <= i <= j <= |s| :: r == s[i..j] && AllTrimChars(s[..i]) && AllTrimChars(s[j..])
  {
    var left := TrimLeft(s);
    var r := TrimRight(left);
    var i := |s| - |left|;
    assert r == s[i..i + |r|];
    assert s[i + |r|..] == left[|r|..];
    r
  }

  /** A string that neither starts nor ends with a trim character is its own trim. */
  lemma TrimOfCore(s: string)
    requires s == [] || (!IsTrimChar(s[0]) && !IsTrimChar(s[|s| - 1]))
    ensures Trim(s) == s
  {
    assert TrimLeft(s) == s;
  }

  /** One trim character on each side of such a string is stripped. */
  lemma TrimPadded(c: char, s: string, d: char)
    requires IsTrimChar(c) && IsTrimChar(d)
    requires s != [] && !IsTrimChar(s[0]) && !IsTrimChar(s[|s| - 1])
    ensures Trim([c] + s + [d]) == s
  {
    var t := [c] + s + [d];
    assert t[1..] == s + [d];
    assert TrimLeft(t) == TrimLeft(s + [d]) == s + [d];
    assert (s + [d])[..|s|] == s;
    assert TrimRight(s + [d]) == TrimRight(s) == s;
  }

  /** PHP's `empty()` on a string, and `!$s`: true for `""` and for `"0"`. */
  predicate IsFalsy(s: string) {
    s == "" || s == "0"
  }

  /** `!$x` on a value that is a string or `null`. */
  predicate IsFalsyOrNull(x: Option<string>) {
    x.None? || IsFalsy(x.value)
  }

  // ---------------------------------------------------------------------
  // explode("\n", $file)
  // ---------------------------------------------------------------------

  /** `explode("\n", s)`: the pieces between newlines, always at least one. */
  function Explode(s: string): (r: seq<string>)
    ensures |r| >= 1
    ensures forall i | 0 <= i < |r| :: '\n' !in r[i]
  {
    if |s| == 0 then [""]
    else
      var rest := Explode(s[1..]);
      if s[0] == '\n' then [""] + rest
      else [[s[0]] + rest[0]] + rest[1..]
  }

  /** `implode("\n", parts)`. */
  function Implode(parts: seq<string>): string
    requires |parts| >= 1
  {
    if |parts| == 1 then parts[0] else parts[0] + "\n" + Implode(parts[1..])
  }

  /** Exploding loses nothing: the pieces joined with newlines give back the text. */
  lemma {:induction false} ImplodeExplode(s: string)
    ensures Implode(Explode(s)) == s
  {
    if |s| > 0 {
      var rest := Explode(s[1..]);
      ImplodeExplode(s[1..]);
      if s[0] == '\n' {
        assert Explode(s) == [""] + rest;
        assert ([""] + rest)[1..] == rest;
        assert Implode(Explode(s)) == "" + "\n" + Implode(rest);
      } else {
        var e := Explode(s);
        assert e == [[s[0]] + rest[0]] + rest[1..];
        if |rest| == 1 {
          assert Implode(e) == [s[0]] + rest[0];
        } else {
          assert e[1..] == rest[1..];
          assert Implode(rest) == rest[0] + "\n" + Implode(rest[1..]);
          assert Implode(e) == [s[0]] + rest[0] + "\n" + Implode(rest[1..]);
        }
        assert [s[0]] + s[1..] == s;
      }
    }
  }

  // ---------------------------------------------------------------------
  // Decimal ids in channel names
  // ---------------------------------------------------------------------

  predicate IsDigit(ch: char) {
    '0' <= ch <= '9'
  }

  function DigitChar(d: nat): (ch: char)
    requires d < 10
    ensures IsDigit(ch)
  {
    ['0', '1', '2', '3', '4', '5', '6', '7', '8', '9'][d]
  }

  function DigitValue(ch: char): (d: nat)
    requires IsDigit(ch)
    ensures d < 10
  {
    (ch as int - '0' as int) as nat
  }

  /** The decimal spelling of an id, as PHP's string interpolation writes it. */
  function Decimal(n: nat): (s: string)
    ensures |s| >= 1
    ensures forall i | 0 <= i < |s| :: IsDigit(s[i])
  {
    if n < 10 then [DigitChar(n)] else Decimal(n / 10) + [DigitChar(n % 10)]
  }

  /** Reads a non-empty run of decimal digits; anything else is `None`. */
  function ParseDecimal(s: string): (r: Option<nat>)
    ensures r.Some? ==> |s| >= 1 && forall i | 0 <= i < |s| :: IsDigit(s[i])
  {
    if |s| == 0 || !IsDigit(s[|s| - 1]) then None
    else if |s| == 1 then Some(DigitValue(s[0]))
    else
      match ParseDecimal(s[..|s| - 1])
      case None => None
      case Some(v) => Some(v * 10 + DigitValue(s[|s| - 1]))
  }

  lemma DigitRoundTrip(d: nat)
    requires d < 10
    ensures DigitValue(DigitChar(d)) == d
  {
  }

  /** Reading back the spelling of an id gives the id. */
  lemma {:induction false} ParseDecimalOfDecimal(n: nat)
    ensures ParseDecimal(Decimal(n)) == Some(n)
  {
    DigitRoundTrip(n % 10);
    if n >= 10 {
      var s := Decimal(n);
      ParseDecimalOfDecimal(n / 10);
      assert s[..|s| - 1] == Decimal(n / 10);
      assert s[|s| - 1] == DigitChar(n % 10);
    }
  }
}
