/**
  What the canonical text means: a reader that knows nothing of the encoder
  reads it back as the value, rounded to the precision, with the members of
  every object in ascending order of their keys.
 */
module CanonicalReading {
  import opened Prelude
  import opened JsonNumbers
  import opened JsonStrings
  import opened CanonicalJson
  import opened CanonicalText
  import opened JsonReader

  // ---- the order of keys ----

  /** `a` and `b` first differ at `k`, where `a` ends or has the smaller code point. */
  predicate SmallerAt(a: string, b: string, k: nat) {
    k <= |a| && k <= |b| && a[..k] == b[..k] && k < |b| && (k == |a| || (k < |a| && a[k] < b[k]))
  }

  predicate Ascends(a: string, b: string) {
    exists k :: 0 <= k <= |a| && SmallerAt(a, b, k)
  }

  lemma SmallerShift(a: string, b: string, k: nat)
    requires a != "" && b != "" && a[0] == b[0]
    ensures SmallerAt(a, b, k + 1) <==> SmallerAt(a[1..], b[1..], k)
  {
    if k + 1 <= |a| && k + 1 <= |b| {
      assert a[..k + 1] == [a[0]] + a[1..][..k] && b[..k + 1] == [b[0]] + b[1..][..k];
    }
  }

  lemma SharedStart(a: string, b: string, k: nat)
    requires SmallerAt(a, b, k) && k > 0
    ensures a[0] == b[0]
  {
    assert a[..k][0] == a[0] && b[..k][0] == b[0];
  }

  /** The order that sorts the keys is the one by the first difference. */
  lemma {:induction false} LessIffAscends(a: string, b: string)
    ensures Less(a, b) <==> Ascends(a, b)
    decreases |a|
  {
    if Less(a, b) {
      if a == "" || a[0] != b[0] {
        assert SmallerAt(a, b, 0);
      } else {
        LessIffAscends(a[1..], b[1..]);
        var k :| 0 <= k <= |a[1..]| && SmallerAt(a[1..], b[1..], k);
        SmallerShift(a, b, k);
      }
    }
    if Ascends(a, b) {
      var k :| 0 <= k <= |a| && SmallerAt(a, b, k);
      if k > 0 {
        SharedStart(a, b, k);
        SmallerShift(a, b, k - 1);
        LessIffAscends(a[1..], b[1..]);
      }
    }
  }

  // ---- strings ----

  lemma HexReads(n: nat)
    requires n < 16
    ensures HexValue(HexDigit(n)) == Some(n)
  {
  }

  lemma CharReads(c: char, s: string)
    requires c != '"'
    ensures ReadChar(EscapedChar(c) + s) == Some(Parsed(c, s))
  {
    var e := EscapedChar(c);
    var x := e + s;
    assert x[|e|..] == s;
    if c < ' ' && |e| == 6 {
      HexReads(0);
      HexReads(c as int / 16);
      HexReads(c as int % 16);
      assert x[2..][0] == '0' && x[2..][1] == '0' && x[2..][2] == e[4] && x[2..][3] == e[5];
      assert HexChar(x[2..]) == Some(c);
    }
  }

  lemma QuoteReads(s: string)
    ensures ReadChar(EscapedChar('"') + s) == Some(Parsed('"', s))
  {
    assert (EscapedChar('"') + s)[2..] == s;
  }

  lemma StringStep(x: string, c: char, t: string, a: string, s: string)
    requires x != "" && x[0] != '"' && ReadChar(x) == Some(Parsed(c, t)) && ReadString(t) == Some(Parsed(a, s))
    ensures ReadString(x) == Some(Parsed([c] + a, s))
  {
  }

  lemma {:induction false} StringReads(a: string, s: string)
    ensures ReadString(Escaped(a) + "\"" + s) == Some(Parsed(a, s))
    decreases |a|
  {
    LiteralHead(a, s);
    if a != "" {
      var rest := Escaped(a[1..]) + "\"" + s;
      if a[0] == '"' {
        QuoteReads(rest);
      } else {
        CharReads(a[0], rest);
      }
      StringReads(a[1..], s);
      StringStep(Escaped(a) + "\"" + s, a[0], rest, a[1..], s);
      assert a == [a[0]] + a[1..];
    }
  }

  // ---- numbers ----

  /** The number of a plain form, as the reader gives it. */
  function NumberOfFixed(f: Fixed): Value {
    if f.frac == 0 then Int(f.sig) else Dec(Finite(f.sig, -(f.frac as int)))
  }

  /** The number that digits read on from `v` lead to. */
  function After(v: nat, d: string): nat
    requires AllDigits(d)
    decreases |d|
  {
    if d == "" then v else After(10 * v + (d[0] - '0') as nat, d[1..])
  }

  lemma {:induction false} AfterSplits(v: nat, a: string, b: string)
    requires AllDigits(a) && AllDigits(b)
    ensures After(v, a + b) == After(After(v, a), b)
    decreases |a|
  {
    if a != "" {
      assert (a + b)[0] == a[0] && (a + b)[1..] == a[1..] + b;
      AfterSplits(10 * v + (a[0] - '0') as nat, a[1..], b);
    } else {
      assert a + b == b;
    }
  }

  lemma {:induction false} AfterIsValue(d: string)
    requires AllDigits(d)
    ensures After(0, d) == DigitsValue(d)
    decreases |d|
  {
    if d != "" {
      var a, c := d[..|d| - 1], d[|d| - 1..];
      assert d == a + c && c[1..] == "";
      AfterIsValue(a);
      AfterSplits(0, a, c);
    }
  }

  lemma {:induction false} RunReads(d: string, s: string, v: nat)
    requires AllDigits(d) && (s == "" || !IsDigit(s[0]))
    ensures DigitRun(d + s, v) == Run(After(v, d), |d|, s)
    decreases |d|
  {
    if d != "" {
      assert (d + s)[0] == d[0] && (d + s)[1..] == d[1..] + s;
      RunReads(d[1..], s, 10 * v + (d[0] - '0') as nat);
    } else {
      assert d + s == s;
    }
  }

  lemma {:induction false} NoLeadingZero(n: nat)
    requires n > 0
    ensures Digits(n)[0] != '0'
  {
    if n >= 10 {
      NoLeadingZero(n / 10);
    }
  }

  lemma WholeReads(n: nat, s: string)
    requires Follows(s)
    ensures ReadUnsigned(Digits(n) + s) == Some(Parsed(Finite(n, 0), s))
  {
    var d := Digits(n);
    RunReads(d, s, 0);
    AfterIsValue(d);
    if n > 0 {
      NoLeadingZero(n);
    }
    At(d, s, 0);
  }

  /** What the reader does at the point. */
  lemma PointStep(x: string, whole: Run, part: Run)
    requires DigitRun(x, 0) == whole && whole.count > 0 && (whole.count > 1 ==> x[0] != '0')
    requires whole.rest != "" && whole.rest[0] == '.'
    requires DigitRun(whole.rest[1..], whole.value) == part && part.count > 0
    ensures ReadUnsigned(x) == Some(Parsed(Finite(part.value, -(part.count as int)), part.rest))
  {
  }

  lemma PointReads(whole: string, part: string, s: string)
    requires AllDigits(whole) && AllDigits(part) && whole != "" && part != ""
    requires Follows(s) && (|whole| > 1 ==> whole[0] != '0')
    ensures ReadUnsigned(whole + ("." + (part + s))) ==
      Some(Parsed(Finite(DigitsValue(whole + part), -|part|), s))
  {
    var t := "." + (part + s);
    RunReads(whole, t, 0);
    At(whole, t, 0);
    assert t[1..] == part + s;
    RunReads(part, s, After(0, whole));
    AfterSplits(0, whole, part);
    AfterIsValue(whole + part);
    PointStep(whole + t, Run(After(0, whole), |whole|, t), Run(After(0, whole + part), |part|, s));
  }

  lemma PaddedHead(n: nat, frac: nat)
    requires frac > 0
    ensures var d := Padded(Digits(n), frac + 1);
      frac < |d| && (d[0] == '0' ==> |d| == frac + 1)
  {
    if n > 0 {
      NoLeadingZero(n);
    }
  }

  function MagnitudeText(n: nat, frac: nat): string {
    if frac == 0 then Digits(n) else Pointed("", Padded(Digits(n), frac + 1), frac)
  }

  lemma PointedText(whole: string, part: string, s: string)
    ensures Pointed("", whole + part, |part|) + s == whole + ("." + (part + s))
  {
    var d := whole + part;
    assert d[..|d| - |part|] == whole && d[|d| - |part|..] == part && "" + whole == whole;
    Regroup(whole, ".", part, s);
    ConcatAssociative(".", part, s);
  }

  lemma Halves(d: string, frac: nat)
    requires AllDigits(d) && 0 < frac < |d|
    ensures var whole, part := d[..|d| - frac], d[|d| - frac..];
      AllDigits(whole) && AllDigits(part) && d == whole + part && whole[0] == d[0]
  {
  }

  lemma UnsignedReads(n: nat, frac: nat, s: string)
    requires Follows(s)
    ensures ReadUnsigned(MagnitudeText(n, frac) + s) == Some(Parsed(Finite(n, -(frac as int)), s))
  {
    if frac == 0 {
      WholeReads(n, s);
    } else {
      PaddedValue(n, frac + 1);
      PaddedHead(n, frac);
      var d := Padded(Digits(n), frac + 1);
      var whole, part := d[..|d| - frac], d[|d| - frac..];
      Halves(d, frac);
      PointReads(whole, part, s);
      PointedText(whole, part, s);
    }
  }

  lemma PointedSign(sign: string, d: string, frac: nat)
    requires frac <= |d|
    ensures Pointed(sign, d, frac) == sign + Pointed("", d, frac)
  {
    var whole, part := d[..|d| - frac], d[|d| - frac..];
    assert "" + whole == whole;
    Regroup(sign, whole, ".", part);
  }

  lemma SignText(f: Fixed)
    ensures FixedText(f) == (if f.sig < 0 then "-" else "") + MagnitudeText(Abs(f.sig), f.frac)
  {
    if f.frac > 0 {
      PointedSign(if f.sig < 0 then "-" else "", Padded(Digits(Abs(f.sig)), f.frac + 1), f.frac);
    }
  }

  lemma SignSlices(text: string, s: string)
    ensures var x := "-" + text + s; x[0] == '-' && x[1..] == text + s
    ensures "" + text + s == text + s
  {
    assert "" + text == text;
  }

  lemma MagnitudeHead(n: nat, frac: nat, s: string)
    ensures var x := MagnitudeText(n, frac) + s; x != "" && x[0] != '-'
  {
    var f := Fixed(n, frac);
    SignText(f);
    FixedTextShape(f);
    At(FixedText(f), s, 0);
    assert "" + MagnitudeText(n, frac) == MagnitudeText(n, frac);
  }

  /** A minus sign reads as the negated number. */
  lemma SignReads(x: string, f: Fixed, s: string)
    requires x != "" && (x[0] == '-' <==> f.sig < 0)
    requires ReadUnsigned(if f.sig < 0 then x[1..] else x) == Some(Parsed(Finite(Abs(f.sig), -(f.frac as int)), s))
    ensures ReadNumber(x) == Some(Parsed(NumberOfFixed(f), s))
  {
  }

  lemma FixedReads(f: Fixed, s: string)
    requires Follows(s)
    ensures ReadNumber(FixedText(f) + s) == Some(Parsed(NumberOfFixed(f), s))
  {
    UnsignedReads(Abs(f.sig), f.frac, s);
    SignText(f);
    SignSlices(MagnitudeText(Abs(f.sig), f.frac), s);
    if f.sig >= 0 {
      MagnitudeHead(f.sig, f.frac, s);
    }
    SignReads(FixedText(f) + s, f, s);
  }

  // ---- values ----

  /** The value that a canonical form is the form of, members in the order listed. */
  function Meant(c: Canon): Value
    decreases c
  {
    match c
    case CNull => Null
    case CBool(b) => Bool(b)
    case CNum(f) => NumberOfFixed(f)
    case CStr(s) => Str(s)
    case CArr(items) => List(MeantAll(items))
    case CObj(members) => Dict(MeantMembers(members))
  }

  function MeantAll(items: seq<Canon>): (r: seq<Value>)
    ensures |r| == |items|
    decreases items
  {
    if items == [] then [] else [Meant(items[0])] + MeantAll(items[1..])
  }

  function MeantMembers(members: seq<Entry<Canon>>): (r: seq<Entry<Value>>)
    ensures |r| == |members|
    decreases members
  {
    if members == [] then [] else [Entry(members[0].key, Meant(members[0].value))] + MeantMembers(members[1..])
  }

  lemma NumberStep(x: string)
    requires x != "" && NumberChar(x[0])
    ensures ReadValue(x) == ReadNumber(x)
  {
  }

  lemma NumberHead(f: Fixed, s: string)
    requires Follows(s)
    ensures ReadValue(FixedText(f) + s) == Some(Parsed(NumberOfFixed(f), s))
  {
    FixedTextChars(f);
    At(FixedText(f), s, 0);
    FixedReads(f, s);
    NumberStep(FixedText(f) + s);
  }

  lemma WordReads(x: string, word: string, v: Value, s: string)
    requires x == word + s
    requires (word == "null" && v == Null) || (word == "true" && v == Bool(true)) ||
      (word == "false" && v == Bool(false))
    ensures ReadValue(x) == Some(Parsed(v, s))
  {
    assert x[..|word|] == word && x[|word|..] == s;
    At(word, s, 0);
  }

  lemma TextReads(a: string, s: string)
    ensures ReadValue(Quoted(a) + s) == Some(Parsed(Str(a), s))
  {
    Unquote(a, s);
    StringReads(a, s);
    At(Quoted(a), s, 0);
  }

  /** A list or an object: what stands between the brackets decides. */
  lemma ListStep(x: string, body: string, items: seq<Value>, s: string)
    requires x == "[" + body && body != ""
    requires if items == [] then body[0] == ']' && body[1..] == s
      else body[0] != ']' && ReadItems(body) == Some(Parsed(items, s))
    ensures ReadValue(x) == Some(Parsed(List(items), s))
  {
    assert x[1..] == body;
    assert items == [] ==> x[2..] == body[1..];
  }

  lemma DictStep(x: string, body: string, members: seq<Entry<Value>>, s: string)
    requires x == "{" + body && body != ""
    requires if members == [] then body[0] == '}' && body[1..] == s
      else body[0] != '}' && ReadMembers(body) == Some(Parsed(members, s))
    ensures ReadValue(x) == Some(Parsed(Dict(members), s))
  {
    assert x[1..] == body;
    assert members == [] ==> x[2..] == body[1..];
  }

  lemma LastItemStep(x: string, v: Value, s: string)
    requires ReadValue(x) == Some(Parsed(v, "]" + s))
    ensures ReadItems(x) == Some(Parsed([v], s))
  {
    assert ("]" + s)[1..] == s;
  }

  lemma NextItemStep(x: string, v: Value, body: string, items: seq<Value>, s: string)
    requires ReadValue(x) == Some(Parsed(v, "," + body)) && ReadItems(body) == Some(Parsed(items, s))
    ensures ReadItems(x) == Some(Parsed([v] + items, s))
  {
    assert ("," + body)[1..] == body;
  }

  lemma MemberStep(x: string, key: string, text: string, v: Value, s: string)
    requires x == Quoted(key) + (":" + text) && ReadValue(text) == Some(Parsed(v, s))
    ensures ReadMember(x) == Some(Parsed(Entry(key, v), s))
  {
    Unquote(key, ":" + text);
    StringReads(key, ":" + text);
    At(Quoted(key), ":" + text, 0);
    assert (":" + text)[1..] == text;
  }

  lemma LastMemberStep(x: string, e: Entry<Value>, s: string)
    requires ReadMember(x) == Some(Parsed(e, "}" + s))
    ensures ReadMembers(x) == Some(Parsed([e], s))
  {
    assert ("}" + s)[1..] == s;
  }

  lemma NextMemberStep(x: string, e: Entry<Value>, body: string, members: seq<Entry<Value>>, s: string)
    requires ReadMember(x) == Some(Parsed(e, "," + body)) && ReadMembers(body) == Some(Parsed(members, s))
    ensures ReadMembers(x) == Some(Parsed([e] + members, s))
  {
    assert ("," + body)[1..] == body;
  }

  /** A printed value is read back, and what follows it is left. */
  lemma {:induction false} PrintReads(c: Canon, s: string)
    requires Follows(s)
    ensures ReadValue(Print(c) + s) == Some(Parsed(Meant(c), s))
    decreases c, 1
  {
    match c
    case CNull => WordReads(Print(c) + s, "null", Null, s);
    case CBool(b) => WordReads(Print(c) + s, if b then "true" else "false", Bool(b), s);
    case CNum(f) => NumberHead(f, s);
    case CStr(a) => TextReads(a, s);
    case CArr(items) => ListReads(items, s);
    case CObj(members) => DictReads(members, s);
  }

  lemma {:induction false} ListReads(items: seq<Canon>, s: string)
    ensures ReadValue(Print(CArr(items)) + s) == Some(Parsed(List(MeantAll(items)), s))
    decreases items, 1
  {
    var texts := Join(PrintAll(items));
    var body := texts + "]" + s;
    Enclosed("[", texts, "]", s);
    if items == [] {
      assert body == "]" + s;
    } else {
      ItemsRead(items, s);
      FirstItem(items, s);
    }
    ListStep(Print(CArr(items)) + s, body, MeantAll(items), s);
  }

  lemma Enclosed(open: string, a: string, close: string, s: string)
    ensures open + a + close + s == open + (a + close + s)
  {
  }

  lemma {:induction false} DictReads(members: seq<Entry<Canon>>, s: string)
    ensures ReadValue(Print(CObj(members)) + s) == Some(Parsed(Dict(MeantMembers(members)), s))
    decreases members, 1
  {
    var texts := Join(MemberTexts(PrintMembers(members)));
    var body := texts + "}" + s;
    Enclosed("{", texts, "}", s);
    if members == [] {
      assert body == "}" + s;
    } else {
      MembersRead(members, s);
      FirstMember(members, s);
    }
    DictStep(Print(CObj(members)) + s, body, MeantMembers(members), s);
  }

  /** The text of a list of items does not begin with the closing bracket. */
  lemma FirstItem(items: seq<Canon>, s: string)
    requires items != []
    ensures var x := Join(PrintAll(items)) + "]" + s;
      x != "" && x[0] != ']'
  {
    JoinHead(PrintAll(items), ']', s);
    PrintHead(items[0]);
    At(Print(items[0]), Rest(PrintAll(items)[1..], ']', s), 0);
  }

  lemma FirstMember(members: seq<Entry<Canon>>, s: string)
    requires members != []
    ensures var x := Join(MemberTexts(PrintMembers(members))) + "}" + s;
      x != "" && x[0] == '"'
  {
    var texts := MemberTexts(PrintMembers(members));
    JoinHead(texts, '}', s);
    At(texts[0], Rest(texts[1..], '}', s), 0);
  }

  lemma {:induction false} ItemsRead(items: seq<Canon>, s: string)
    requires items != []
    ensures ReadItems(Join(PrintAll(items)) + "]" + s) == Some(Parsed(MeantAll(items), s))
    decreases items, 0
  {
    var rest := PrintAll(items[1..]);
    var x := Join(PrintAll(items)) + "]" + s;
    JoinHead(PrintAll(items), ']', s);
    RestFollows(rest, ']', s);
    PrintReads(items[0], Rest(rest, ']', s));
    if rest != [] {
      ItemsRead(items[1..], s);
      NextItemStep(x, Meant(items[0]), Join(rest) + "]" + s, MeantAll(items[1..]), s);
    } else {
      LastItemStep(x, Meant(items[0]), s);
      assert MeantAll(items) == [Meant(items[0])];
    }
  }

  lemma MemberReads(e: Entry<Canon>, s: string)
    requires ReadValue(Print(e.value) + s) == Some(Parsed(Meant(e.value), s))
    ensures ReadMember(Quoted(e.key) + ":" + Print(e.value) + s) == Some(Parsed(Entry(e.key, Meant(e.value)), s))
  {
    Enclosed(Quoted(e.key), ":", Print(e.value), s);
    ConcatAssociative(":", Print(e.value), s);
    MemberStep(Quoted(e.key) + ":" + Print(e.value) + s, e.key, Print(e.value) + s, Meant(e.value), s);
  }

  lemma {:induction false} MembersRead(members: seq<Entry<Canon>>, s: string)
    requires members != []
    ensures ReadMembers(Join(MemberTexts(PrintMembers(members))) + "}" + s) == Some(Parsed(MeantMembers(members), s))
    decreases members, 0
  {
    var texts := MemberTexts(PrintMembers(members));
    var rest := MemberTexts(PrintMembers(members[1..]));
    var x := Join(texts) + "}" + s;
    var e := Entry(members[0].key, Meant(members[0].value));
    JoinHead(texts, '}', s);
    RestFollows(rest, '}', s);
    PrintReads(members[0].value, Rest(rest, '}', s));
    MemberReads(members[0], Rest(rest, '}', s));
    if rest != [] {
      MembersRead(members[1..], s);
      NextMemberStep(x, e, Join(rest) + "}" + s, MeantMembers(members[1..]), s);
    } else {
      LastMemberStep(x, e, s);
      assert MeantMembers(members) == [e];
    }
  }

  // ---- what is read is the rounded value ----

  /** What every canonical form of a well-keyed value meets. */
  predicate Lawful(c: Canon)
    decreases c
  {
    match c
    case CNum(f) => Minimal(f)
    case CArr(items) => forall i :: 0 <= i < |items| ==> Lawful(items[i])
    case CObj(members) => Sorted(members) && forall i :: 0 <= i < |members| ==> Lawful(members[i].value)
    case _ => true
  }

  /** Every object lists its keys in ascending order, and no decimal ends in a zero. */
  predicate InOrder(v: Value)
    decreases v
  {
    match v
    case Dec(d) => d.Finite? && d.exp < 0 && d.coef % 10 != 0
    case List(items) => forall i :: 0 <= i < |items| ==> InOrder(items[i])
    case Dict(members) =>
      && (forall i, j :: 0 <= i < j < |members| ==> Ascends(members[i].key, members[j].key))
      && (forall i :: 0 <= i < |members| ==> InOrder(members[i].value))
    case _ => true
  }

  lemma {:induction false} CanonLawful(v: Value)
    requires Encodable(v) && WellKeyed(v)
    ensures Lawful(CanonOf(v))
    decreases v
  {
    match v
    case List(items) =>
      forall i | 0 <= i < |items|
        ensures Lawful(CanonAll(items)[i])
      {
        CanonLawful(items[i]);
      }
    case Dict(members) =>
      var a := CanonMembers(members);
      forall i | 0 <= i < |members|
        ensures Lawful(a[i].value)
      {
        CanonLawful(members[i].value);
      }
      SortSorted(a);
      SortElements(a);
      assert forall i :: 0 <= i < |SortByKey(a)| ==> SortByKey(a)[i] in a;
    case _ =>
  }

  lemma {:induction false} MeantAllAt(items: seq<Canon>, i: nat)
    requires i < |items|
    ensures MeantAll(items)[i] == Meant(items[i])
    decreases items
  {
    if i > 0 {
      MeantAllAt(items[1..], i - 1);
    }
  }

  lemma {:induction false} MeantMembersAt(members: seq<Entry<Canon>>, i: nat)
    requires i < |members|
    ensures MeantMembers(members)[i] == Entry(members[i].key, Meant(members[i].value))
    decreases members
  {
    if i > 0 {
      MeantMembersAt(members[1..], i - 1);
    }
  }

  lemma SortedDistinct<T(!new)>(s: seq<Entry<T>>)
    requires Sorted(s)
    ensures DistinctKeys(s)
  {
    forall i, j | 0 <= i < j < |s|
      ensures s[i].key != s[j].key
    {
      LessOrdered(s[i].key, s[i].key, s[i].key);
    }
  }

  lemma SortOfSorted<T(!new)>(s: seq<Entry<T>>)
    requires Sorted(s)
    ensures SortByKey(s) == s
  {
    SortedDistinct(s);
    SortSorted(s);
    SortElements(s);
    SortedUnique(SortByKey(s), s);
  }

  /** A lawful form is the form of what it means. */
  lemma {:induction false} MeantKeeps(c: Canon)
    requires Lawful(c)
    ensures Encodable(Meant(c)) && WellKeyed(Meant(c)) && CanonOf(Meant(c)) == c && InOrder(Meant(c))
    decreases c, 1
  {
    match c
    case CArr(items) => MeantListKeeps(items);
    case CObj(members) => MeantDictKeeps(members);
    case _ =>
  }

  lemma {:induction false} MeantListKeeps(items: seq<Canon>)
    requires Lawful(CArr(items))
    ensures var v := Meant(CArr(items));
      Encodable(v) && WellKeyed(v) && CanonOf(v) == CArr(items) && InOrder(v)
    decreases items, 0
  {
    var r := MeantAll(items);
    forall i | 0 <= i < |items|
      ensures Encodable(r[i]) && WellKeyed(r[i]) && CanonOf(r[i]) == items[i] && InOrder(r[i])
    {
      MeantAllAt(items, i);
      MeantKeeps(items[i]);
    }
    assert CanonAll(r) == items;
  }

  lemma {:induction false} MeantDictKeeps(members: seq<Entry<Canon>>)
    requires Lawful(CObj(members))
    ensures var v := Meant(CObj(members));
      Encodable(v) && WellKeyed(v) && CanonOf(v) == CObj(members) && InOrder(v)
    decreases members, 0
  {
    var r := MeantMembers(members);
    forall i | 0 <= i < |members|
      ensures r[i].key == members[i].key && Encodable(r[i].value) && WellKeyed(r[i].value)
      ensures Encodable(r[i].value) ==> CanonOf(r[i].value) == members[i].value
      ensures InOrder(r[i].value)
    {
      MeantMembersAt(members, i);
      MeantKeeps(members[i].value);
    }
    assert CanonMembers(r) == members;
    SortOfSorted(members);
    SortedDistinct(members);
    forall i, j | 0 <= i < j < |r|
      ensures Ascends(r[i].key, r[j].key)
    {
      LessIffAscends(r[i].key, r[j].key);
    }
  }

  /**
    What the text of a value means: it reads as the value rounded to the
    precision, with the keys of every object ascending by code points and
    without trailing zeros in a fraction.
   */
  lemma EncodingReads(v: Value, prec: Precision)
    requires Encodable(v) && WellKeyed(v)
    ensures Encode(v, prec).Some?
    ensures var r := Read(Encode(v, prec).value);
      r.Some? && SameJson(r.value, Rounded(v, prec)) && InOrder(r.value)
  {
    EncodePrints(v, prec);
    RoundedEncodable(v, prec);
    var w := Rounded(v, prec);
    var c := CanonOf(w);
    CanonLawful(w);
    MeantKeeps(c);
    PrintReads(c, "");
    assert Print(c) + "" == Print(c);
    CanonIff(Meant(c), w);
  }
}
