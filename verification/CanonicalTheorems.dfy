/**
  What equal canonical texts, and so equal canonical hashes, say about the
  values they were made from.
 */
module CanonicalTheorems {
  import opened Prelude
  import opened JsonNumbers
  import opened JsonStrings
  import opened CanonicalJson
  import opened CanonicalText

  /** Two values encode alike exactly when, rounded to the precision, they are the same JSON value. */
  lemma EncodingUnambiguous(v: Value, w: Value, prec: Precision)
    requires Encodable(v) && Encodable(w) && WellKeyed(v) && WellKeyed(w)
    ensures Encode(v, prec) == Encode(w, prec) <==> SameJson(Rounded(v, prec), Rounded(w, prec))
  {
    EncodePrints(v, prec);
    EncodePrints(w, prec);
    RoundedEncodable(v, prec);
    RoundedEncodable(w, prec);
    CanonIff(Rounded(v, prec), Rounded(w, prec));
    var c, d := CanonOf(Rounded(v, prec)), CanonOf(Rounded(w, prec));
    if Print(c) == Print(d) {
      Unambiguous(c, d, "", "");
    }
  }

  lemma {:induction false} RoundedTwice(v: Value, prec: Precision)
    ensures Rounded(Rounded(v, prec), prec) == Rounded(v, prec)
    decreases v
  {
    match v
    case Dec(d) => if d.Finite? { RoundedIsWithin(d, prec); }
    case List(items) =>
      var r := RoundedAll(items, prec);
      forall i | 0 <= i < |items|
        ensures RoundedAll(r, prec)[i] == r[i]
      {
        RoundedTwice(items[i], prec);
      }
      assert RoundedAll(r, prec) == r;
    case Dict(members) =>
      var r := RoundedMembers(members, prec);
      forall i | 0 <= i < |members|
        ensures RoundedMembers(r, prec)[i] == r[i]
      {
        RoundedTwice(members[i].value, prec);
      }
      assert RoundedMembers(r, prec) == r;
    case _ =>
  }

  /** Rounding changes the JSON value exactly when some decimal has a nonzero digit beyond the precision. */
  lemma {:induction false} RoundingKeepsIff(v: Value, prec: Precision)
    requires Encodable(v) && WellKeyed(v)
    ensures SameJson(v, Rounded(v, prec)) <==> Exact(v, prec)
    decreases v
  {
    match v
    case Dec(d) => RoundingIsExactIff(d, prec);
    case List(items) =>
      forall i | 0 <= i < |items|
        ensures SameJson(items[i], RoundedAll(items, prec)[i]) <==> Exact(items[i], prec)
      {
        RoundingKeepsIff(items[i], prec);
      }
    case Dict(members) =>
      forall i | 0 <= i < |members|
        ensures SameMember(members[i], RoundedMembers(members, prec)[i]) <==> Exact(members[i].value, prec)
      {
        RoundingKeepsIff(members[i].value, prec);
      }
      MatchesItself(members, RoundedMembers(members, prec));
    case _ =>
  }

  predicate SameKeys(ms: seq<Entry<Value>>, ns: seq<Entry<Value>>) {
    |ms| == |ns| && DistinctKeys(ms) && forall i :: 0 <= i < |ms| ==> ns[i].key == ms[i].key
  }

  lemma MatchesInPlace(ms: seq<Entry<Value>>, ns: seq<Entry<Value>>, i: nat)
    requires SameKeys(ms, ns) && i < |ms|
    ensures MemberIn(ms[i], ns) <==> SameMember(ms[i], ns[i])
    ensures SameMember(ms[i], ns[i]) ==> InMembers(ms, ns[i])
  {
    if MemberIn(ms[i], ns) {
      var j :| 0 <= j < |ns| && SameMember(ms[i], ns[j]);
      assert ms[j].key == ms[i].key;
    }
  }

  /** With distinct keys and the same keys in place, members can only match in place. */
  lemma MatchesItself(ms: seq<Entry<Value>>, ns: seq<Entry<Value>>)
    requires SameKeys(ms, ns)
    ensures SameMembers(ms, ns) <==> forall i :: 0 <= i < |ms| ==> SameMember(ms[i], ns[i])
  {
    forall i | 0 <= i < |ms|
      ensures MemberIn(ms[i], ns) <==> SameMember(ms[i], ns[i])
      ensures SameMember(ms[i], ns[i]) ==> InMembers(ms, ns[i])
    {
      MatchesInPlace(ms, ns, i);
    }
  }

  /** For values whose decimals fit the precision, the encoding is exactly JSON equality. */
  lemma ExactUnambiguous(v: Value, w: Value, prec: Precision)
    requires Encodable(v) && Encodable(w) && WellKeyed(v) && WellKeyed(w)
    requires Exact(v, prec) && Exact(w, prec)
    ensures Encode(v, prec) == Encode(w, prec) <==> SameJson(v, w)
  {
    var r, s := Rounded(v, prec), Rounded(w, prec);
    RoundedEncodable(v, prec);
    RoundedEncodable(w, prec);
    RoundingKeepsIff(v, prec);
    RoundingKeepsIff(w, prec);
    CanonIff(v, r);
    CanonIff(w, s);
    CanonIff(v, w);
    CanonIff(r, s);
    EncodingUnambiguous(v, w, prec);
  }

  /**
    Beyond the precision the encoding is not faithful: every value shares its
    text with its rounding, which is a different JSON value exactly when a
    nonzero digit was dropped.
   */
  lemma RoundingCollides(v: Value, prec: Precision)
    requires Encodable(v) && WellKeyed(v)
    ensures Encodable(Rounded(v, prec)) && WellKeyed(Rounded(v, prec)) && Exact(Rounded(v, prec), prec)
    ensures Encode(v, prec) == Encode(Rounded(v, prec), prec)
    ensures SameJson(v, Rounded(v, prec)) <==> Exact(v, prec)
  {
    var r := Rounded(v, prec);
    RoundedEncodable(v, prec);
    RoundedTwice(v, prec);
    RoundingKeepsIff(v, prec);
    RoundingKeepsIff(r, prec);
    CanonIff(r, r);
    EncodePrints(v, prec);
    EncodePrints(r, prec);
  }

  lemma OneDigitBeyond(n: nat, prec: Precision)
    requires n == Pow10(prec) + 1
    ensures Excess(Finite(n, 0), prec) == 1 && !ExactDecimal(Finite(n, 0), prec)
  {
    DigitsBound(n, prec);
    DigitsBound(n, prec + 1);
    assert n == 10 * Pow10(prec - 1) + 1 && Pow10(1) == 10;
  }

  /** A number of one digit more than the precision that shares its text with another number. */
  lemma OneDigitTooMany(prec: Precision)
    ensures var v := Dec(Finite(Pow10(prec) + 1, 0)); var w := Rounded(v, prec);
      Encode(v, prec).Some? && Encode(v, prec) == Encode(w, prec) && !SameJson(v, w)
  {
    var n: nat := Pow10(prec) + 1;
    OneDigitBeyond(n, prec);
    RoundingCollides(Dec(Finite(n, 0)), prec);
    NumberPrints(Finite(n, 0), prec);
  }
}
