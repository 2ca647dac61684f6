/**
 * Python's `repr()` of a `str`, as the f-strings `{name!r}` of the response layer and of
 * the code generator use it: the quote is `'` unless the text holds a `'` and no `"`;
 * backslash and the chosen quote are escaped, tab, newline and carriage return get their
 * short escapes, and the other ASCII control characters become `\xNN`.
 */
module PyRepr {

  const HexDigits: string := "0123456789abcdef"

  function QuoteFor(s: string): (q: char)
    ensures q == '\'' || q == '"'
    ensures q == '"' <==> ('\'' in s && '"' !in s)
  {
    if '\'' in s && '"' !in s then '"' else '\''
  }

  predicate IsControl(c: char) {
    c < ' ' || c == '\U{7F}'
  }

  function EscapeChar(c: char, q: char): (r: string)
    ensures |r| >= 1
  {
    if c == q || c == '\\' then ['\\', c]
    else if c == '\t' then "\\t"
    else if c == '\n' then "\\n"
    else if c == '\r' then "\\r"
    else if IsControl(c) then "\\x" + [HexDigits[c as int / 16], HexDigits[c as int % 16]]
    else [c]
  }

  function Escape(s: string, q: char): string {
    if s == [] then [] else EscapeChar(s[0], q) + Escape(s[1..], q)
  }

  /** `repr(s)` for a Python `str`. */
  function Repr(s: string): (r: string)
    ensures |r| >= 2 && r[0] == QuoteFor(s) && r[|r| - 1] == QuoteFor(s)
  {
    var q := QuoteFor(s);
    [q] + Escape(s, q) + [q]
  }

  function HexValue(c: char): (n: nat)
    ensures n < 16
  {
    if '0' <= c <= '9' then c as int - '0' as int
    else if 'a' <= c <= 'f' then c as int - 'a' as int + 10
    else 0
  }

  /** Reads Python escape sequences back: the inverse of `Escape` on every string. */
  function Unescape(e: string): string
    decreases |e|
  {
    if e == [] then []
    else if e[0] == '\\' && |e| >= 2 then
      if e[1] == 't' then ['\t'] + Unescape(e[2..])
      else if e[1] == 'n' then ['\n'] + Unescape(e[2..])
      else if e[1] == 'r' then ['\r'] + Unescape(e[2..])
      else if e[1] == 'x' && |e| >= 4 then [(HexValue(e[2]) * 16 + HexValue(e[3])) as char] + Unescape(e[4..])
      else [e[1]] + Unescape(e[2..])
    else [e[0]] + Unescape(e[1..])
  }

  /** A name that repr() leaves as it is between single quotes. */
  predicate Plain(s: string) {
    forall i :: 0 <= i < |s| ==> s[i] != '\'' && s[i] != '\\' && !IsControl(s[i])
  }

  lemma HexDigitValue(n: nat)
    requires n < 16
    ensures HexValue(HexDigits[n]) == n
  {
  }

  lemma {:induction false} UnescapeChar(c: char, q: char, rest: string)
    requires q == '\'' || q == '"'
    ensures Unescape(EscapeChar(c, q) + rest) == [c] + Unescape(rest)
  {
    var e := EscapeChar(c, q) + rest;
    if c == q || c == '\\' {
      assert e[0] == '\\' && e[1] == c && e[2..] == rest;
    } else if c == '\t' || c == '\n' || c == '\r' {
      assert e[2..] == rest;
    } else if IsControl(c) {
      var hi, lo := c as int / 16, c as int % 16;
      HexDigitValue(hi);
      HexDigitValue(lo);
      assert e[0] == '\\' && e[1] == 'x' && e[2] == HexDigits[hi] && e[3] == HexDigits[lo];
      assert e[4..] == rest;
      assert (hi * 16 + lo) as char == c;
    } else {
      assert e[0] == c && e[1..] == rest;
    }
  }

  lemma {:induction false} UnescapeEscape(s: string, q: char)
    requires q == '\'' || q == '"'
    ensures Unescape(Escape(s, q)) == s
  {
    if s != [] {
      UnescapeChar(s[0], q, Escape(s[1..], q));
      UnescapeEscape(s[1..], q);
    }
  }

  /** repr() loses nothing: stripping the quotes and undoing the escapes gives the text back. */
  lemma ReprRoundTrip(s: string)
    ensures var r := Repr(s); Unescape(r[1..|r| - 1]) == s
  {
    var r := Repr(s);
    assert r[1..|r| - 1] == Escape(s, QuoteFor(s));
    UnescapeEscape(s, QuoteFor(s));
  }

  lemma {:induction false} EscapePlain(s: string)
    requires Plain(s)
    ensures Escape(s, '\'') == s
  {
    if s != [] {
      assert Plain(s[1..]) by {
        forall i | 0 <= i < |s[1..]| ensures s[1..][i] != '\'' && s[1..][i] != '\\' && !IsControl(s[1..][i]) {
          assert s[1..][i] == s[i + 1];
        }
      }
      EscapePlain(s[1..]);
    }
  }

  /** For an ordinary name repr() is the name between single quotes, verbatim. */
  lemma ReprOfPlain(s: string)
    requires Plain(s)
    ensures Repr(s) == "'" + s + "'"
  {
    EscapePlain(s);
  }
}
