/**
  A reader of JSON texts, after the grammar of RFC 8259 without insignificant
  whitespace and without exponents. It knows nothing of the encoder: what it
  reads is what a text means.
 */
module JsonReader {
  import opened Prelude
  import opened JsonNumbers
  import opened CanonicalJson

  /** What was read, and the text after it. */
  datatype Parsed<+T> = Parsed(value: T, rest: string)

  // ---- strings, section 7 ----

  function HexValue(c: char): Option<nat> {
    if '0' <= c <= '9' then Some((c - '0') as nat)
    else if 'a' <= c <= 'f' then Some((c - 'a') as nat + 10)
    else if 'A' <= c <= 'F' then Some((c - 'A') as nat + 10)
    else None
  }

  /** The character of a four-digit escape; half of a surrogate pair is none. */
  function HexChar(s: string): Option<char>
    requires |s| >= 4
  {
    var a, b, c, d := HexValue(s[0]), HexValue(s[1]), HexValue(s[2]), HexValue(s[3]);
    if a.None? || b.None? || c.None? || d.None? then None
    else
      var code := ((a.value * 16 + b.value) * 16 + c.value) * 16 + d.value;
      if 0xD800 <= code < 0xE000 || code >= 0x10000 then None else Some(code as char)
  }

  /** One character of a string, escaped or not. */
  function ReadChar(s: string): (p: Option<Parsed<char>>)
    ensures p.Some? ==> |p.value.rest| < |s|
  {
    if s == "" || s[0] < ' ' then None
    else if s[0] != '\\' then Some(Parsed(s[0], s[1..]))
    else if |s| < 2 then None
    else
      match s[1]
      case '"' => Some(Parsed('"', s[2..]))
      case '\\' => Some(Parsed('\\', s[2..]))
      case '/' => Some(Parsed('/', s[2..]))
      case 'b' => Some(Parsed('\U{08}', s[2..]))
      case 'f' => Some(Parsed('\U{0C}', s[2..]))
      case 'n' => Some(Parsed('\n', s[2..]))
      case 'r' => Some(Parsed('\r', s[2..]))
      case 't' => Some(Parsed('\t', s[2..]))
      case 'u' =>
        if |s| < 6 then None
        else
          var c := HexChar(s[2..]);
          if c.None? then None else Some(Parsed(c.value, s[6..]))
      case _ => None
  }

  /** The rest of a string after its opening quote. */
  function ReadString(s: string): (p: Option<Parsed<string>>)
    ensures p.Some? ==> |p.value.rest| < |s|
    decreases |s|
  {
    if s == "" then None
    else if s[0] == '"' then Some(Parsed("", s[1..]))
    else
      var c := ReadChar(s);
      if c.None? then None
      else
        var more := ReadString(c.value.rest);
        if more.None? then None else Some(Parsed([c.value.value] + more.value.value, more.value.rest))
  }

  // ---- numbers, section 6 ----

  /** A run of digits that was read: the number so far, how many digits, and the text after them. */
  datatype Run = Run(value: nat, count: nat, rest: string)

  /** The digits at the front of a text, read on from a number. */
  function DigitRun(s: string, value: nat): (r: Run)
    ensures |r.rest| + r.count == |s|
    decreases |s|
  {
    if s == "" || !IsDigit(s[0]) then Run(value, 0, s)
    else
      var more := DigitRun(s[1..], 10 * value + (s[0] - '0') as nat);
      more.(count := more.count + 1)
  }

  function ReadUnsigned(s: string): (p: Option<Parsed<Decimal>>)
    ensures p.Some? ==> p.value.value.Finite? && |p.value.rest| < |s|
  {
    var whole := DigitRun(s, 0);
    if whole.count == 0 || (whole.count > 1 && s[0] == '0') then None
    else if whole.rest == "" || whole.rest[0] != '.' then Some(Parsed(Finite(whole.value, 0), whole.rest))
    else
      var part := DigitRun(whole.rest[1..], whole.value);
      if part.count == 0 then None else Some(Parsed(Finite(part.value, -(part.count as int)), part.rest))
  }

  function ReadNumber(s: string): (p: Option<Parsed<Value>>)
    ensures p.Some? ==> |p.value.rest| < |s|
  {
    var negative := s != "" && s[0] == '-';
    var p := ReadUnsigned(if negative then s[1..] else s);
    if p.None? then None
    else
      var d := p.value.value;
      var coef := if negative then -d.coef else d.coef;
      Some(Parsed(if d.exp == 0 then Int(coef) else Dec(Finite(coef, d.exp)), p.value.rest))
  }

  // ---- values, sections 3 to 5 ----

  function ReadWord(s: string, word: string, v: Value): (p: Option<Parsed<Value>>)
    requires word != ""
    ensures p.Some? ==> |p.value.rest| < |s|
  {
    if word <= s then Some(Parsed(v, s[|word|..])) else None
  }

  function ReadValue(s: string): (p: Option<Parsed<Value>>)
    ensures p.Some? ==> |p.value.rest| < |s|
    decreases |s|, 0
  {
    if s == "" then None
    else
      match s[0]
      case 'n' => ReadWord(s, "null", Null)
      case 't' => ReadWord(s, "true", Bool(true))
      case 'f' => ReadWord(s, "false", Bool(false))
      case '"' =>
        var p := ReadString(s[1..]);
        if p.None? then None else Some(Parsed(Str(p.value.value), p.value.rest))
      case '[' =>
        if |s| > 1 && s[1] == ']' then Some(Parsed(List([]), s[2..]))
        else
          var p := ReadItems(s[1..]);
          if p.None? then None else Some(Parsed(List(p.value.value), p.value.rest))
      case '{' =>
        if |s| > 1 && s[1] == '}' then Some(Parsed(Dict([]), s[2..]))
        else
          var p := ReadMembers(s[1..]);
          if p.None? then None else Some(Parsed(Dict(p.value.value), p.value.rest))
      case _ => ReadNumber(s)
  }

  /** At least one item, up to the closing bracket. */
  function ReadItems(s: string): (p: Option<Parsed<seq<Value>>>)
    ensures p.Some? ==> |p.value.rest| < |s|
    decreases |s|, 1
  {
    var first := ReadValue(s);
    if first.None? || first.value.rest == "" then None
    else
      var v, rest := first.value.value, first.value.rest;
      if rest[0] == ']' then Some(Parsed([v], rest[1..]))
      else if rest[0] != ',' then None
      else
        var more := ReadItems(rest[1..]);
        if more.None? then None else Some(Parsed([v] + more.value.value, more.value.rest))
  }

  /** One member: a string, a colon, a value. */
  function ReadMember(s: string): (p: Option<Parsed<Entry<Value>>>)
    ensures p.Some? ==> |p.value.rest| < |s|
    decreases |s|, 1
  {
    if s == "" || s[0] != '"' then None
    else
      var key := ReadString(s[1..]);
      if key.None? || key.value.rest == "" || key.value.rest[0] != ':' then None
      else
        var v := ReadValue(key.value.rest[1..]);
        if v.None? then None else Some(Parsed(Entry(key.value.value, v.value.value), v.value.rest))
  }

  /** At least one member, up to the closing brace. */
  function ReadMembers(s: string): (p: Option<Parsed<seq<Entry<Value>>>>)
    ensures p.Some? ==> |p.value.rest| < |s|
    decreases |s|, 2
  {
    var first := ReadMember(s);
    if first.None? || first.value.rest == "" then None
    else
      var e, rest := first.value.value, first.value.rest;
      if rest[0] == '}' then Some(Parsed([e], rest[1..]))
      else if rest[0] != ',' then None
      else
        var more := ReadMembers(rest[1..]);
        if more.None? then None else Some(Parsed([e] + more.value.value, more.value.rest))
  }

  /** The value that a whole text is. */
  function Read(s: string): Option<Value> {
    var p := ReadValue(s);
    if p.None? || p.value.rest != "" then None else Some(p.value.value)
  }
}
