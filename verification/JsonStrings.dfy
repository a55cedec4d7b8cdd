/**
  String literals of the canonical encoder: `json.dumps(s, ensure_ascii=False)`,
  the minimal escaping of section 7 of RFC 8259. A string is a sequence of
  Unicode scalar values.
 */
module JsonStrings {
  function HexDigit(n: nat): (c: char)
    requires n < 16
    ensures c != '"' && c != '\\'
  {
    if n < 10 then '0' + n as char else 'a' + (n - 10) as char
  }

  function EscapedChar(c: char): (s: string)
    ensures s != "" && s[0] != '"'
  {
    if c == '"' then "\\\""
    else if c == '\\' then "\\\\"
    else if c == '\n' then "\\n"
    else if c == '\r' then "\\r"
    else if c == '\t' then "\\t"
    else if c == '\U{08}' then "\\b"
    else if c == '\U{0C}' then "\\f"
    else if c < ' ' then
      assert c as int < 32;
      "\\u00" + [HexDigit(c as int / 16), HexDigit(c as int % 16)]
    else [c]
  }

  function Escaped(s: string): string {
    if s == "" then "" else EscapedChar(s[0]) + Escaped(s[1..])
  }

  function Quoted(s: string): (q: string)
    ensures |q| >= 2 && q[0] == '"'
  {
    "\"" + Escaped(s) + "\""
  }

  lemma HexInjective(m: nat, n: nat)
    requires m < 16 && n < 16 && HexDigit(m) == HexDigit(n)
    ensures m == n
  {
  }

  /** No escape is a prefix of another. */
  lemma EscapedCharUnambiguous(c: char, d: char, s: string, t: string)
    requires EscapedChar(c) + s == EscapedChar(d) + t
    ensures c == d && s == t
  {
    var x, y := EscapedChar(c) + s, EscapedChar(d) + t;
    assert x[0] == EscapedChar(c)[0] == EscapedChar(d)[0];
    if x[0] == '\\' {
      assert x[1] == EscapedChar(c)[1] == EscapedChar(d)[1];
      if x[1] == 'u' {
        assert x[4] == EscapedChar(c)[4] == EscapedChar(d)[4];
        assert x[5] == EscapedChar(c)[5] == EscapedChar(d)[5];
        HexInjective(c as int / 16, d as int / 16);
        HexInjective(c as int % 16, d as int % 16);
        assert c as int == d as int;
      }
    }
    assert EscapedChar(c) == EscapedChar(d);
    assert s == x[|EscapedChar(c)|..] && t == y[|EscapedChar(d)|..];
  }

  lemma Regroup(a: string, b: string, c: string, d: string)
    ensures (a + b) + c + d == a + (b + c + d)
  {
  }

  lemma LiteralHead(a: string, s: string)
    ensures var x := Escaped(a) + "\"" + s;
      if a == "" then x[0] == '"' && x[1..] == s
      else x[0] != '"' && x == EscapedChar(a[0]) + (Escaped(a[1..]) + "\"" + s)
  {
    if a != "" {
      Regroup(EscapedChar(a[0]), Escaped(a[1..]), "\"", s);
    } else {
      assert "" + "\"" + s == "\"" + s;
    }
  }

  /** A string literal determines its string and where it ends. */
  lemma {:induction false} EscapedUnambiguous(a: string, b: string, s: string, t: string)
    requires Escaped(a) + "\"" + s == Escaped(b) + "\"" + t
    ensures a == b && s == t
    decreases |a|
  {
    LiteralHead(a, s);
    LiteralHead(b, t);
    if a != "" {
      var restA, restB := Escaped(a[1..]) + "\"" + s, Escaped(b[1..]) + "\"" + t;
      EscapedCharUnambiguous(a[0], b[0], restA, restB);
      EscapedUnambiguous(a[1..], b[1..], s, t);
      assert a == [a[0]] + a[1..] && b == [b[0]] + b[1..];
    }
  }

  lemma QuotedUnambiguous(a: string, b: string, s: string, t: string)
    requires Quoted(a) + s == Quoted(b) + t
    ensures a == b && s == t
  {
    Unquote(a, s);
    Unquote(b, t);
    EscapedUnambiguous(a, b, s, t);
  }

  lemma Unquote(a: string, s: string)
    ensures (Quoted(a) + s)[1..] == Escaped(a) + "\"" + s
  {
  }
}
