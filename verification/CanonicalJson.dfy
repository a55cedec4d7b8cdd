/**
  The canonical JSON encoder behind every hash of the project. Its text is
  proved unambiguous: two values encode alike exactly when they are the same
  JSON value, up to the one thing the encoder forgets, the digits of a decimal
  beyond the precision of the decimal context.
 */
module CanonicalJson {
  import opened Prelude
  import opened JsonNumbers
  import opened JsonStrings

  datatype Entry<+T> = Entry(key: string, value: T)

  /**
    A Python value as the encoder sees it. A mapping lists its members in
    insertion order; `BadKeys` is one with a key that is not a string.
   */
  datatype Value =
    | Null
    | Bool(b: bool)
    | Int(i: int)
    | Dec(d: Decimal)
    | Float
    | Str(s: string)
    | List(items: seq<Value>)
    | Dict(members: seq<Entry<Value>>)
    | BadKeys
    | Unsupported

  // ---- the encoder ----

  /** String order by code points. */
  predicate Less(a: string, b: string) {
    b != "" && (a == "" || a[0] < b[0] || (a[0] == b[0] && Less(a[1..], b[1..])))
  }

  function Insert<T>(e: Entry<T>, s: seq<Entry<T>>): seq<Entry<T>> {
    if s == [] then [e]
    else if Less(s[0].key, e.key) then [s[0]] + Insert(e, s[1..])
    else [e] + s
  }

  function SortByKey<T>(s: seq<Entry<T>>): seq<Entry<T>> {
    if s == [] then [] else Insert(s[0], SortByKey(s[1..]))
  }

  function Join(texts: seq<string>): string {
    if texts == [] then ""
    else if |texts| == 1 then texts[0]
    else texts[0] + "," + Join(texts[1..])
  }

  function MemberTexts(entries: seq<Entry<string>>): seq<string> {
    if entries == [] then []
    else [Quoted(entries[0].key) + ":" + entries[0].value] + MemberTexts(entries[1..])
  }

  function IntText(i: int): string {
    (if i < 0 then "-" else "") + Digits(Abs(i))
  }

  function DecimalText(d: Decimal, prec: Precision): Option<string> {
    if d.NonFinite? then None
    else if d.coef == 0 then Some("0")
    else
      var r := RoundedDecimal(d, prec);
      if r.NonFinite? then None else Some(FixedText(ToFixed(r.coef, r.exp)))
  }

  /** The text, or nothing where the encoder raises. */
  function Encode(v: Value, prec: Precision): Option<string>
    decreases v
  {
    match v
    case Null => Some("null")
    case Bool(b) => Some(if b then "true" else "false")
    case Int(i) => Some(IntText(i))
    case Dec(d) => DecimalText(d, prec)
    case Str(s) => Some(Quoted(s))
    case List(items) =>
      var texts := EncodeAll(items, prec);
      if texts.None? then None else Some("[" + Join(texts.value) + "]")
    case Dict(members) =>
      var entries := EncodeMembers(members, prec);
      if entries.None? then None else Some("{" + Join(MemberTexts(SortByKey(entries.value))) + "}")
    case _ => None
  }

  function EncodeAll(items: seq<Value>, prec: Precision): Option<seq<string>>
    decreases items
  {
    if items == [] then Some([])
    else
      var first, rest := Encode(items[0], prec), EncodeAll(items[1..], prec);
      if first.None? || rest.None? then None else Some([first.value] + rest.value)
  }

  function EncodeMembers(members: seq<Entry<Value>>, prec: Precision): Option<seq<Entry<string>>>
    decreases members
  {
    if members == [] then Some([])
    else
      var first, rest := Encode(members[0].value, prec), EncodeMembers(members[1..], prec);
      if first.None? || rest.None? then None else Some([Entry(members[0].key, first.value)] + rest.value)
  }

  // ---- JSON values and their canonical form ----

  predicate Encodable(v: Value)
    decreases v
  {
    match v
    case Dec(d) => d.Finite?
    case List(items) => forall i :: 0 <= i < |items| ==> Encodable(items[i])
    case Dict(members) => forall i :: 0 <= i < |members| ==> Encodable(members[i].value)
    case Float => false
    case BadKeys => false
    case Unsupported => false
    case _ => true
  }

  predicate DistinctKeys<T>(s: seq<Entry<T>>) {
    forall i, j :: 0 <= i < j < |s| ==> s[i].key != s[j].key
  }

  /** No mapping has a key twice. */
  predicate WellKeyed(v: Value)
    decreases v
  {
    match v
    case List(items) => forall i :: 0 <= i < |items| ==> WellKeyed(items[i])
    case Dict(members) => DistinctKeys(members) && forall i :: 0 <= i < |members| ==> WellKeyed(members[i].value)
    case _ => true
  }

  function NumberIn(v: Value): Option<real> {
    match v
    case Int(i) => Some(NumberOf(i, 0))
    case Dec(d) => if d.Finite? then Some(NumberOf(d.coef, d.exp)) else None
    case _ => None
  }

  /** Equality as JSON values: numbers by value, objects without order. */
  predicate SameJson(v: Value, w: Value)
    decreases v
  {
    match v
    case Null => w.Null?
    case Bool(b) => w == Bool(b)
    case Int(_) => NumberIn(w) == NumberIn(v)
    case Dec(_) => NumberIn(v).Some? && NumberIn(w) == NumberIn(v)
    case Str(s) => w == Str(s)
    case List(items) =>
      w.List? && |w.items| == |items| && forall i :: 0 <= i < |items| ==> SameJson(items[i], w.items[i])
    case Dict(members) =>
      && w.Dict?
      && SameMembers(members, w.members)
    case _ => false
  }

  predicate SameMembers(ms: seq<Entry<Value>>, ns: seq<Entry<Value>>)
    decreases ms, 1
  {
    RowsMatch(ms, ns) && ColumnsMatch(ms, ns)
  }

  predicate RowsMatch(ms: seq<Entry<Value>>, ns: seq<Entry<Value>>)
    decreases ms, 0
  {
    forall i :: 0 <= i < |ms| ==> MemberIn(ms[i], ns)
  }

  predicate ColumnsMatch(ms: seq<Entry<Value>>, ns: seq<Entry<Value>>)
    decreases ms, 0, 1
  {
    forall j :: 0 <= j < |ns| ==> InMembers(ms, ns[j])
  }

  predicate MemberIn(x: Entry<Value>, ns: seq<Entry<Value>>)
    decreases x, 1
  {
    exists j :: 0 <= j < |ns| && SameMember(x, ns[j])
  }

  predicate InMembers(ms: seq<Entry<Value>>, y: Entry<Value>)
    decreases ms, 0, 0
  {
    exists i :: 0 <= i < |ms| && SameMember(ms[i], y)
  }

  predicate SameMember(x: Entry<Value>, y: Entry<Value>)
    decreases x, 0
  {
    x.key == y.key && SameJson(x.value, y.value)
  }

  /** The value with every decimal rounded to the precision. */
  function Rounded(v: Value, prec: Precision): Value
    decreases v
  {
    match v
    case Dec(d) => Dec(RoundedDecimal(d, prec))
    case List(items) => List(RoundedAll(items, prec))
    case Dict(members) => Dict(RoundedMembers(members, prec))
    case _ => v
  }

  function RoundedAll(items: seq<Value>, prec: Precision): (r: seq<Value>)
    ensures |r| == |items|
    decreases items
  {
    seq(|items|, i requires 0 <= i < |items| => Rounded(items[i], prec))
  }

  function RoundedMembers(members: seq<Entry<Value>>, prec: Precision): (r: seq<Entry<Value>>)
    ensures |r| == |members|
    decreases members
  {
    seq(|members|, i requires 0 <= i < |members| => Entry(members[i].key, Rounded(members[i].value, prec)))
  }

  /** Every decimal is kept by rounding to the precision. */
  predicate Exact(v: Value, prec: Precision)
    decreases v
  {
    match v
    case Dec(d) => ExactDecimal(d, prec)
    case List(items) => forall i :: 0 <= i < |items| ==> Exact(items[i], prec)
    case Dict(members) => forall i :: 0 <= i < |members| ==> Exact(members[i].value, prec)
    case _ => true
  }

  datatype Canon =
    | CNull
    | CBool(b: bool)
    | CNum(f: Fixed)
    | CStr(s: string)
    | CArr(items: seq<Canon>)
    | CObj(members: seq<Entry<Canon>>)

  function CanonOf(v: Value): Canon
    requires Encodable(v)
    decreases v
  {
    match v
    case Null => CNull
    case Bool(b) => CBool(b)
    case Int(i) => CNum(ToFixed(i, 0))
    case Dec(d) => CNum(ToFixed(d.coef, d.exp))
    case Str(s) => CStr(s)
    case List(items) => CArr(CanonAll(items))
    case Dict(members) => CObj(SortByKey(CanonMembers(members)))
  }

  function CanonAll(items: seq<Value>): (r: seq<Canon>)
    requires forall i :: 0 <= i < |items| ==> Encodable(items[i])
    ensures |r| == |items|
    decreases items
  {
    seq(|items|, i requires 0 <= i < |items| => CanonOf(items[i]))
  }

  function CanonMembers(members: seq<Entry<Value>>): (r: seq<Entry<Canon>>)
    requires forall i :: 0 <= i < |members| ==> Encodable(members[i].value)
    ensures |r| == |members|
    decreases members
  {
    seq(|members|, i requires 0 <= i < |members| => Entry(members[i].key, CanonOf(members[i].value)))
  }

  // ---- sorting ----

  lemma {:induction false} LessOrdered(a: string, b: string, c: string)
    ensures !Less(a, a)
    ensures a == b || Less(a, b) || Less(b, a)
    ensures Less(a, b) && Less(b, c) ==> Less(a, c)
  {
    if a != "" && b != "" && c != "" {
      LessOrdered(a[1..], b[1..], c[1..]);
    } else if a != "" && b != "" {
      LessOrdered(a[1..], b[1..], "");
    } else if a != "" {
      LessOrdered(a[1..], "", "");
    }
    if a != "" && b != "" && a[0] == b[0] && a[1..] == b[1..] {
      assert a == [a[0]] + a[1..] && b == [b[0]] + b[1..];
    }
  }

  predicate Sorted<T>(s: seq<Entry<T>>) {
    forall i, j :: 0 <= i < j < |s| ==> Less(s[i].key, s[j].key)
  }

  lemma {:induction false} InsertElements<T(!new)>(e: Entry<T>, s: seq<Entry<T>>)
    ensures forall x :: x in Insert(e, s) <==> x == e || x in s
  {
    if s != [] && Less(s[0].key, e.key) {
      InsertElements(e, s[1..]);
      assert s == [s[0]] + s[1..];
    }
  }

  lemma {:induction false} SortElements<T(!new)>(s: seq<Entry<T>>)
    ensures forall x :: x in SortByKey(s) <==> x in s
  {
    if s != [] {
      SortElements(s[1..]);
      InsertElements(s[0], SortByKey(s[1..]));
      assert s == [s[0]] + s[1..];
    }
  }

  lemma {:induction false} InsertSorted<T(!new)>(e: Entry<T>, s: seq<Entry<T>>)
    requires Sorted(s) && forall x :: x in s ==> x.key != e.key
    ensures Sorted(Insert(e, s))
  {
    if s != [] {
      LessOrdered(s[0].key, e.key, "");
      if Less(s[0].key, e.key) {
        InsertSorted(e, s[1..]);
        InsertElements(e, s[1..]);
        var r := Insert(e, s[1..]);
        forall x | x in r
          ensures Less(s[0].key, x.key)
        {
          if x in s[1..] {
            var i :| 0 <= i < |s[1..]| && s[1..][i] == x;
            assert s[i + 1] == x;
          }
        }
        assert Insert(e, s) == [s[0]] + r;
      } else {
        forall j | 0 <= j < |s|
          ensures Less(e.key, s[j].key)
        {
          LessOrdered(e.key, s[0].key, s[j].key);
        }
      }
    }
  }

  lemma {:induction false} SortSorted<T(!new)>(s: seq<Entry<T>>)
    requires DistinctKeys(s)
    ensures Sorted(SortByKey(s))
  {
    if s != [] {
      SortSorted(s[1..]);
      SortElements(s[1..]);
      forall x | x in SortByKey(s[1..])
        ensures x.key != s[0].key
      {
        var i :| 0 <= i < |s[1..]| && s[1..][i] == x;
        assert s[i + 1] == x;
      }
      InsertSorted(s[0], SortByKey(s[1..]));
    }
  }

  lemma SortedHead<T(!new)>(s: seq<Entry<T>>, x: Entry<T>)
    requires Sorted(s) && x in s
    ensures x == s[0] || (x in s[1..] && Less(s[0].key, x.key))
  {
  }

  lemma ListsSomething<T(!new)>(a: seq<T>)
    ensures a != [] ==> exists x :: x in a
  {
    if a != [] {
      assert a[0] in a;
    }
  }

  /** A sorted listing is determined by what it lists. */
  lemma {:induction false} SortedUnique<T(!new)>(a: seq<Entry<T>>, b: seq<Entry<T>>)
    requires Sorted(a) && Sorted(b)
    requires forall x :: x in a <==> x in b
    ensures a == b
  {
    ListsSomething(a);
    ListsSomething(b);
    if a != [] {
      assert a[0] in a && b[0] in b;
      SortedHead(a, b[0]);
      SortedHead(b, a[0]);
      LessOrdered(a[0].key, b[0].key, a[0].key);
      assert a[0] == b[0];
      forall x
        ensures x in a[1..] <==> x in b[1..]
      {
        TailElements(a, x);
        TailElements(b, x);
      }
      SortedUnique(a[1..], b[1..]);
    }
  }

  lemma TailElements<T(!new)>(a: seq<Entry<T>>, x: Entry<T>)
    requires Sorted(a) && a != []
    ensures x in a[1..] <==> x in a && x != a[0]
  {
    if x in a[1..] {
      var i :| 0 <= i < |a[1..]| && a[1..][i] == x;
      assert a[i + 1] == x && Less(a[0].key, x.key);
      LessOrdered(x.key, x.key, x.key);
    }
  }

  // ---- canonical forms are equal exactly for the same JSON value ----

  lemma {:induction false} CanonIff(v: Value, w: Value)
    requires Encodable(v) && Encodable(w) && WellKeyed(v) && WellKeyed(w)
    ensures CanonOf(v) == CanonOf(w) <==> SameJson(v, w)
    decreases v
  {
    if NumberIn(v).Some? && NumberIn(w).Some? {
      NumbersIff(v, w);
    } else if v.List? && w.List? {
      ListsIff(v, w);
    } else if v.Dict? && w.Dict? {
      var a, b := CanonMembers(v.members), CanonMembers(w.members);
      forall i, j | 0 <= i < |a| && 0 <= j < |b|
        ensures SameMember(v.members[i], w.members[j]) <==> a[i] == b[j]
      {
        CanonIff(v.members[i].value, w.members[j].value);
      }
      DictsIff(a, b, v.members, w.members);
    }
  }

  lemma NumbersIff(v: Value, w: Value)
    requires NumberIn(v).Some? && NumberIn(w).Some? && Encodable(v) && Encodable(w)
    ensures CanonOf(v) == CanonOf(w) <==> SameJson(v, w)
  {
    var (c, e) := if v.Int? then (v.i, 0) else (v.d.coef, v.d.exp);
    var (d, f) := if w.Int? then (w.i, 0) else (w.d.coef, w.d.exp);
    SameFixedIffSameNumber(c, e, d, f);
  }

  lemma {:induction false} ListsIff(v: Value, w: Value)
    requires v.List? && w.List? && Encodable(v) && Encodable(w) && WellKeyed(v) && WellKeyed(w)
    ensures CanonOf(v) == CanonOf(w) <==> SameJson(v, w)
    decreases v, 0
  {
    forall i | 0 <= i < |v.items| && i < |w.items|
      ensures CanonOf(v.items[i]) == CanonOf(w.items[i]) <==> SameJson(v.items[i], w.items[i])
    {
      CanonIff(v.items[i], w.items[i]);
    }
    var a, b := CanonAll(v.items), CanonAll(w.items);
    assert forall i :: 0 <= i < |a| ==> a[i] == CanonOf(v.items[i]);
    assert forall i :: 0 <= i < |b| ==> b[i] == CanonOf(w.items[i]);
  }

  /** Row and column `(i, j)` of the two listings agree on whether they list the same member. */
  predicate Agree(a: seq<Entry<Canon>>, b: seq<Entry<Canon>>, ms: seq<Entry<Value>>, ns: seq<Entry<Value>>) {
    && |a| == |ms| && |b| == |ns|
    && forall i, j :: 0 <= i < |ms| && 0 <= j < |ns| ==> (SameMember(ms[i], ns[j]) <==> a[i] == b[j])
  }

  lemma MatchedIffListed(a: seq<Entry<Canon>>, b: seq<Entry<Canon>>, ms: seq<Entry<Value>>, ns: seq<Entry<Value>>,
      i: nat)
    requires Agree(a, b, ms, ns) && i < |ms|
    ensures MemberIn(ms[i], ns) <==> a[i] in b
  {
    if a[i] in b {
      var j :| 0 <= j < |b| && b[j] == a[i];
      assert SameMember(ms[i], ns[j]);
    }
  }

  lemma MatchedIffLists(a: seq<Entry<Canon>>, b: seq<Entry<Canon>>, ms: seq<Entry<Value>>, ns: seq<Entry<Value>>,
      j: nat)
    requires Agree(a, b, ms, ns) && j < |ns|
    ensures InMembers(ms, ns[j]) <==> b[j] in a
  {
    if b[j] in a {
      var i :| 0 <= i < |a| && a[i] == b[j];
      assert SameMember(ms[i], ns[j]);
    }
  }

  predicate AllListed<T(==)>(a: seq<T>, b: seq<T>) {
    forall i :: 0 <= i < |a| ==> a[i] in b
  }

  lemma RowsIff(a: seq<Entry<Canon>>, b: seq<Entry<Canon>>, ms: seq<Entry<Value>>, ns: seq<Entry<Value>>)
    requires Agree(a, b, ms, ns)
    ensures RowsMatch(ms, ns) <==> AllListed(a, b)
  {
    forall i | 0 <= i < |ms|
      ensures MemberIn(ms[i], ns) <==> a[i] in b
    {
      MatchedIffListed(a, b, ms, ns, i);
    }
  }

  lemma ColumnsIff(a: seq<Entry<Canon>>, b: seq<Entry<Canon>>, ms: seq<Entry<Value>>, ns: seq<Entry<Value>>)
    requires Agree(a, b, ms, ns)
    ensures ColumnsMatch(ms, ns) <==> AllListed(b, a)
  {
    forall j | 0 <= j < |ns|
      ensures InMembers(ms, ns[j]) <==> b[j] in a
    {
      MatchedIffLists(a, b, ms, ns, j);
    }
  }

  lemma DictsIff(a: seq<Entry<Canon>>, b: seq<Entry<Canon>>, ms: seq<Entry<Value>>, ns: seq<Entry<Value>>)
    requires Agree(a, b, ms, ns) && DistinctKeys(a) && DistinctKeys(b)
    ensures SortByKey(a) == SortByKey(b) <==> SameMembers(ms, ns)
  {
    RowsIff(a, b, ms, ns);
    ColumnsIff(a, b, ms, ns);
    SortedAlikeIff(a, b);
  }

  lemma SortedAlikeIff<T(!new)>(a: seq<Entry<T>>, b: seq<Entry<T>>)
    requires DistinctKeys(a) && DistinctKeys(b)
    ensures SortByKey(a) == SortByKey(b) <==> AllListed(a, b) && AllListed(b, a)
  {
    SortElements(a);
    SortElements(b);
    if SortByKey(a) == SortByKey(b) {
      assert forall i :: 0 <= i < |a| ==> a[i] in SortByKey(a);
      assert forall j :: 0 <= j < |b| ==> b[j] in SortByKey(b);
    } else {
      SortSorted(a);
      SortSorted(b);
      if forall x :: x in a <==> x in b {
        SortedUnique(SortByKey(a), SortByKey(b));
      }
    }
  }
}
