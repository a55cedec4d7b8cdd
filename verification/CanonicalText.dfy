/**
  The text of the canonical encoder: it is the print of the canonical form, and
  no two canonical forms print alike, even when more text follows.
 */
module CanonicalText {
  import opened Prelude
  import opened JsonNumbers
  import opened JsonStrings
  import opened CanonicalJson

  // ---- printing a canonical form ----

  function Print(c: Canon): string
    decreases c
  {
    match c
    case CNull => "null"
    case CBool(b) => if b then "true" else "false"
    case CNum(f) => FixedText(f)
    case CStr(s) => Quoted(s)
    case CArr(items) => "[" + Join(PrintAll(items)) + "]"
    case CObj(members) => "{" + Join(MemberTexts(PrintMembers(members))) + "}"
  }

  function PrintAll(items: seq<Canon>): (texts: seq<string>)
    ensures |texts| == |items|
    decreases items
  {
    if items == [] then [] else [Print(items[0])] + PrintAll(items[1..])
  }

  function PrintMembers(members: seq<Entry<Canon>>): (entries: seq<Entry<string>>)
    ensures |entries| == |members|
    decreases members
  {
    if members == [] then [] else [Entry(members[0].key, Print(members[0].value))] + PrintMembers(members[1..])
  }

  // ---- the encoder prints the canonical form ----

  lemma {:induction false} PrintInsert(e: Entry<Canon>, s: seq<Entry<Canon>>)
    ensures PrintMembers(Insert(e, s)) == Insert(Entry(e.key, Print(e.value)), PrintMembers(s))
  {
    if s == [] {
      assert [e][1..] == [];
    } else {
      var t := PrintMembers(s);
      assert t[0].key == s[0].key && t[1..] == PrintMembers(s[1..]);
      if Less(s[0].key, e.key) {
        PrintInsert(e, s[1..]);
        var r := [s[0]] + Insert(e, s[1..]);
        assert r[0] == s[0] && r[1..] == Insert(e, s[1..]);
      } else {
        assert ([e] + s)[1..] == s;
      }
    }
  }

  lemma {:induction false} PrintSorted(s: seq<Entry<Canon>>)
    ensures PrintMembers(SortByKey(s)) == SortByKey(PrintMembers(s))
  {
    if s != [] {
      PrintSorted(s[1..]);
      PrintInsert(s[0], SortByKey(s[1..]));
    }
  }

  lemma NumberPrints(d: Decimal, prec: Precision)
    requires d.Finite?
    ensures RoundedDecimal(d, prec).Finite?
    ensures var r := RoundedDecimal(d, prec); DecimalText(d, prec) == Some(FixedText(ToFixed(r.coef, r.exp)))
  {
    if d.coef == 0 {
      ZeroPrints(d.exp);
      DigitsBound(0, 1);
    }
  }

  lemma {:induction false} ZeroStrips(frac: nat)
    ensures Strip(0, frac) == Fixed(0, 0)
    decreases frac
  {
    if frac > 0 {
      ZeroStrips(frac - 1);
    }
  }

  lemma ZeroPrints(exp: int)
    ensures FixedText(ToFixed(0, exp)) == "0"
  {
    if exp < 0 {
      ZeroStrips(-exp);
    }
    assert ToFixed(0, exp) == Fixed(0, 0);
    assert "" + Digits(0) == "0";
  }

  lemma {:induction false} RoundedEncodable(v: Value, prec: Precision)
    ensures Encodable(Rounded(v, prec)) <==> Encodable(v)
    ensures WellKeyed(v) ==> WellKeyed(Rounded(v, prec))
    decreases v
  {
    match v
    case List(items) =>
      forall i | 0 <= i < |items|
        ensures Encodable(Rounded(items[i], prec)) <==> Encodable(items[i])
        ensures WellKeyed(items[i]) ==> WellKeyed(Rounded(items[i], prec))
      {
        RoundedEncodable(items[i], prec);
      }
      var r := RoundedAll(items, prec);
      assert forall i :: 0 <= i < |items| ==> r[i] == Rounded(items[i], prec);
    case Dict(members) =>
      forall i | 0 <= i < |members|
        ensures Encodable(Rounded(members[i].value, prec)) <==> Encodable(members[i].value)
        ensures WellKeyed(members[i].value) ==> WellKeyed(Rounded(members[i].value, prec))
      {
        RoundedEncodable(members[i].value, prec);
      }
      var r := RoundedMembers(members, prec);
      assert forall i :: 0 <= i < |members| ==> r[i] == Entry(members[i].key, Rounded(members[i].value, prec));
    case _ =>
  }

  /**
    The encoder raises exactly on values that hold a float, a non-finite
    decimal, a key that is not a string or an unsupported object; otherwise it
    prints the canonical form of the value rounded to the precision.
   */
  lemma {:induction false} EncodePrints(v: Value, prec: Precision)
    ensures Encode(v, prec).Some? <==> Encodable(v)
    ensures Encodable(v) ==> Encodable(Rounded(v, prec)) && Encode(v, prec) == Some(Print(CanonOf(Rounded(v, prec))))
    decreases v
  {
    RoundedEncodable(v, prec);
    match v
    case Dec(d) => if d.Finite? { NumberPrints(d, prec); }
    case List(items) =>
      EncodeAllPrints(items, prec);
    case Dict(members) =>
      EncodeMembersPrints(members, prec);
      if Encodable(v) {
        PrintSorted(CanonMembers(RoundedMembers(members, prec)));
      }
    case _ =>
  }

  lemma {:induction false} EncodeAllPrints(items: seq<Value>, prec: Precision)
    ensures EncodeAll(items, prec).Some? <==> forall i :: 0 <= i < |items| ==> Encodable(items[i])
    ensures EncodeAll(items, prec).Some? ==>
      && (forall i :: 0 <= i < |items| ==> Encodable(RoundedAll(items, prec)[i]))
      && EncodeAll(items, prec).value == PrintAll(CanonAll(RoundedAll(items, prec)))
    decreases items
  {
    if items != [] {
      var rest := items[1..];
      EncodePrints(items[0], prec);
      EncodeAllPrints(rest, prec);
      assert forall i :: 0 < i < |items| ==> items[i] == rest[i - 1];
      if EncodeAll(items, prec).Some? {
        var r, s := RoundedAll(items, prec), RoundedAll(rest, prec);
        assert r == [Rounded(items[0], prec)] + s;
        assert CanonAll(r) == [CanonOf(r[0])] + CanonAll(s);
      }
    }
  }

  lemma {:induction false} EncodeMembersPrints(members: seq<Entry<Value>>, prec: Precision)
    ensures EncodeMembers(members, prec).Some? <==> forall i :: 0 <= i < |members| ==> Encodable(members[i].value)
    ensures EncodeMembers(members, prec).Some? ==>
      && (forall i :: 0 <= i < |members| ==> Encodable(RoundedMembers(members, prec)[i].value))
      && EncodeMembers(members, prec).value == PrintMembers(CanonMembers(RoundedMembers(members, prec)))
    decreases members
  {
    if members != [] {
      var rest := members[1..];
      EncodePrints(members[0].value, prec);
      EncodeMembersPrints(rest, prec);
      assert forall i :: 0 < i < |members| ==> members[i] == rest[i - 1];
      if EncodeMembers(members, prec).Some? {
        var r, s := RoundedMembers(members, prec), RoundedMembers(rest, prec);
        assert r == [Entry(members[0].key, Rounded(members[0].value, prec))] + s;
        assert CanonMembers(r) == [Entry(r[0].key, CanonOf(r[0].value))] + CanonMembers(s);
      }
    }
  }

  // ---- no two canonical forms print alike ----

  /** What may follow a value inside a document. */
  predicate Follows(s: string) {
    s == "" || s[0] == ',' || s[0] == ']' || s[0] == '}'
  }

  /** The first character tells the kind of value. */
  lemma PrintHead(c: Canon)
    ensures Print(c) != ""
    ensures match c
      case CNull => Print(c)[0] == 'n'
      case CBool(b) => Print(c)[0] == if b then 't' else 'f'
      case CNum(_) => NumberChar(Print(c)[0])
      case CStr(_) => Print(c)[0] == '"'
      case CArr(_) => Print(c)[0] == '['
      case CObj(_) => Print(c)[0] == '{'
  {
    if c.CNum? {
      FixedTextChars(c.f);
    }
  }

  lemma SameKind(c: Canon, d: Canon, s: string, t: string)
    requires Print(c) + s == Print(d) + t
    ensures match c
      case CNull => d.CNull?
      case CBool(b) => d == CBool(b)
      case CNum(_) => d.CNum?
      case CStr(_) => d.CStr?
      case CArr(_) => d.CArr?
      case CObj(_) => d.CObj?
  {
    PrintHead(c);
    PrintHead(d);
    assert (Print(c) + s)[0] == Print(c)[0];
    assert (Print(d) + t)[0] == Print(d)[0];
  }

  lemma SameSuffix(a: string, s: string, t: string)
    requires a + s == a + t
    ensures s == t
  {
    assert s == (a + s)[|a|..] && t == (a + t)[|a|..];
  }

  lemma NumberUnambiguous(f: Fixed, g: Fixed, s: string, t: string)
    requires FixedText(f) + s == FixedText(g) + t && Follows(s) && Follows(t)
    ensures f == g && s == t
  {
    var a, b := FixedText(f), FixedText(g);
    FixedTextChars(f);
    FixedTextChars(g);
    NotLonger(a, b, s, t);
    NotLonger(b, a, t, s);
    assert a == (a + s)[..|a|] && b == (b + t)[..|b|];
    FixedTextInjective(f, g);
    SameSuffix(a, s, t);
  }

  lemma NotLonger(a: string, b: string, s: string, t: string)
    requires a + s == b + t && Follows(s)
    requires forall i :: 0 <= i < |b| ==> NumberChar(b[i])
    ensures |b| <= |a|
  {
    At(a, s, |a|);
    At(b, t, |a|);
  }

  lemma At(a: string, s: string, i: nat)
    ensures i < |a| ==> (a + s)[i] == a[i]
    ensures |a| <= i < |a| + |s| ==> (a + s)[i] == s[i - |a|]
  {
  }

  lemma NeverCloses(first: string, rest: string, close: char, t: string)
    requires first != "" && first[0] != close
    ensures first + rest != [close] + t
  {
    At(first, rest, 0);
    At([close], t, 0);
  }

  /** A joined list, its closing bracket and what follows: the first text, then a comma or the bracket. */
  function Rest(texts: seq<string>, close: char, s: string): string {
    if texts == [] then [close] + s else "," + (Join(texts) + [close] + s)
  }

  lemma JoinHead(texts: seq<string>, close: char, s: string)
    ensures texts == [] ==> Join(texts) + [close] + s == [close] + s
    ensures texts != [] ==> Join(texts) + [close] + s == texts[0] + Rest(texts[1..], close, s)
  {
    if |texts| == 1 {
      ConcatAssociative(texts[0], [close], s);
    } else if |texts| > 1 {
      Regroup(texts[0] + ",", Join(texts[1..]), [close], s);
      ConcatAssociative(texts[0], ",", Join(texts[1..]) + [close] + s);
    } else {
      assert "" + [close] + s == [close] + s;
    }
  }

  lemma RestFollows(texts: seq<string>, close: char, s: string)
    requires close == ']' || close == '}'
    ensures Follows(Rest(texts, close, s))
  {
  }

  /** Two rests that are equal both end their lists here, or both go on. */
  lemma RestUnambiguous(texts: seq<string>, more: seq<string>, close: char, s: string, t: string)
    requires Rest(texts, close, s) == Rest(more, close, t) && (close == ']' || close == '}')
    ensures texts == [] <==> more == []
    ensures texts == [] ==> s == t
    ensures texts != [] ==> Join(texts) + [close] + s == Join(more) + [close] + t
  {
    var x, y := Rest(texts, close, s), Rest(more, close, t);
    assert x[1..] == if texts == [] then s else Join(texts) + [close] + s;
    assert y[1..] == if more == [] then t else Join(more) + [close] + t;
    assert x[0] == if texts == [] then close else ',';
    assert y[0] == if more == [] then close else ',';
  }

  /** Where the text of a value ends and which value it is can be read off its front. */
  lemma {:induction false} Unambiguous(c: Canon, d: Canon, s: string, t: string)
    requires Print(c) + s == Print(d) + t && Follows(s) && Follows(t)
    ensures c == d && s == t
    decreases c, 1
  {
    SameKind(c, d, s, t);
    match c
    case CNum(f) => NumberUnambiguous(f, d.f, s, t);
    case CStr(a) => QuotedUnambiguous(a, d.s, s, t);
    case CArr(items) =>
      Bracketed("[", Join(PrintAll(items)), ']', s, Join(PrintAll(d.items)), t);
      ItemsUnambiguous(items, d.items, s, t);
    case CObj(members) =>
      Bracketed("{", Join(MemberTexts(PrintMembers(members))), '}', s, Join(MemberTexts(PrintMembers(d.members))), t);
      MembersUnambiguous(members, d.members, s, t);
    case _ => SameSuffix(Print(c), s, t);
  }

  lemma Bracketed(open: string, a: string, close: char, s: string, b: string, t: string)
    requires |open| == 1 && (open + a + [close]) + s == (open + b + [close]) + t
    ensures a + [close] + s == b + [close] + t
  {
    assert ((open + a + [close]) + s)[1..] == a + [close] + s;
    assert ((open + b + [close]) + t)[1..] == b + [close] + t;
  }

  lemma {:induction false} ItemsUnambiguous(a: seq<Canon>, b: seq<Canon>, s: string, t: string)
    requires Join(PrintAll(a)) + "]" + s == Join(PrintAll(b)) + "]" + t
    ensures a == b && s == t
    decreases a, 0
  {
    JoinHead(PrintAll(a), ']', s);
    JoinHead(PrintAll(b), ']', t);
    if a != [] && b != [] {
      var restA, restB := PrintAll(a[1..]), PrintAll(b[1..]);
      RestFollows(restA, ']', s);
      RestFollows(restB, ']', t);
      Unambiguous(a[0], b[0], Rest(restA, ']', s), Rest(restB, ']', t));
      RestUnambiguous(restA, restB, ']', s, t);
      if a[1..] != [] {
        ItemsUnambiguous(a[1..], b[1..], s, t);
      }
      assert a == [a[0]] + a[1..] && b == [b[0]] + b[1..];
    } else if a != [] {
      PrintHead(a[0]);
      NeverCloses(Print(a[0]), Rest(PrintAll(a)[1..], ']', s), ']', t);
    } else if b != [] {
      PrintHead(b[0]);
      NeverCloses(Print(b[0]), Rest(PrintAll(b)[1..], ']', t), ']', s);
    } else {
      SameSuffix("]", s, t);
    }
  }

  lemma {:induction false} MembersUnambiguous(a: seq<Entry<Canon>>, b: seq<Entry<Canon>>, s: string, t: string)
    requires Join(MemberTexts(PrintMembers(a))) + "}" + s == Join(MemberTexts(PrintMembers(b))) + "}" + t
    ensures a == b && s == t
    decreases a, 0
  {
    JoinHead(MemberTexts(PrintMembers(a)), '}', s);
    JoinHead(MemberTexts(PrintMembers(b)), '}', t);
    if a != [] && b != [] {
      var restA, restB := MemberTexts(PrintMembers(a[1..])), MemberTexts(PrintMembers(b[1..]));
      RestFollows(restA, '}', s);
      RestFollows(restB, '}', t);
      MemberHead(a[0], b[0], Rest(restA, '}', s), Rest(restB, '}', t));
      Unambiguous(a[0].value, b[0].value, Rest(restA, '}', s), Rest(restB, '}', t));
      RestUnambiguous(restA, restB, '}', s, t);
      if a[1..] != [] {
        MembersUnambiguous(a[1..], b[1..], s, t);
      }
      assert a == [a[0]] + a[1..] && b == [b[0]] + b[1..];
    } else if a != [] {
      var texts := MemberTexts(PrintMembers(a));
      NeverCloses(texts[0], Rest(texts[1..], '}', s), '}', t);
    } else if b != [] {
      var texts := MemberTexts(PrintMembers(b));
      NeverCloses(texts[0], Rest(texts[1..], '}', t), '}', s);
    } else {
      SameSuffix("}", s, t);
    }
  }

  lemma MemberHead(x: Entry<Canon>, y: Entry<Canon>, s: string, t: string)
    requires Quoted(x.key) + ":" + Print(x.value) + s == Quoted(y.key) + ":" + Print(y.value) + t
    ensures x.key == y.key && Print(x.value) + s == Print(y.value) + t
  {
    Regroup(Quoted(x.key), ":", Print(x.value), s);
    Regroup(Quoted(y.key), ":", Print(y.value), t);
    QuotedUnambiguous(x.key, y.key, ":" + Print(x.value) + s, ":" + Print(y.value) + t);
    assert (":" + Print(x.value) + s)[1..] == Print(x.value) + s;
    assert (":" + Print(y.value) + t)[1..] == Print(y.value) + t;
  }
}
