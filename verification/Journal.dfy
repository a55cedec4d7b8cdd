/**
  The append-only text journal that both the controller (`events.jsonl` of a
  run) and the remote runner keep: one JSON document per line, an unterminated
  final fragment after a crash, and a reader that either repairs the fragment
  or refuses the file.

  The JSON printer and parser are parameters. What is assumed about them is
  `ValidCodec`: they are inverse, a printed document has no raw control
  character, no proper prefix of a printed document parses, and a complete
  document is never mistaken for a torn one.
 */
module Journal {
  import opened Prelude

  datatype Codec<!E> = Codec(
    encode: E -> string,
    decode: string -> Option<E>,
    torn: string -> bool,
    // the record carries this sequence number wherever the reader checks it
    numbered: (E, nat) -> bool)

  ghost predicate ValidCodec<E(!new)>(c: Codec<E>) {
    && (forall e :: c.decode(c.encode(e)) == Some(e))
    && (forall e, i :: 0 <= i < |c.encode(e)| ==> c.encode(e)[i] >= ' ')
    && (forall e, k :: 0 <= k < |c.encode(e)| ==> c.decode(c.encode(e)[..k]) == None)
    && (forall e :: !c.torn(c.encode(e)))
  }

  /** The line boundaries of Python's `str.splitlines`. */
  predicate IsBreak(c: char) {
    || '\U{0A}' <= c <= '\U{0D}'
    || '\U{1C}' <= c <= '\U{1E}'
    || c == '\U{85}'
    || c == '\U{2028}'
    || c == '\U{2029}'
  }

  ghost predicate BreakFree(s: string) {
    forall i :: 0 <= i < |s| ==> !IsBreak(s[i])
  }

  function FirstBreak(s: string): (k: nat)
    ensures k <= |s|
    ensures forall i :: 0 <= i < k ==> !IsBreak(s[i])
    ensures k < |s| ==> IsBreak(s[k])
  {
    if s == "" || IsBreak(s[0]) then 0 else 1 + FirstBreak(s[1..])
  }

  function BreakWidth(s: string, k: nat): nat
    requires k < |s|
  {
    if s[k] == '\r' && k + 1 < |s| && s[k + 1] == '\n' then 2 else 1
  }

  /** `str.splitlines`: no empty last piece, and "\r\n" is one boundary. */
  function SplitLines(s: string): seq<string>
    decreases |s|
  {
    if s == "" then []
    else
      var k := FirstBreak(s);
      if k == |s| then [s]
      else [s[..k]] + SplitLines(s[k + BreakWidth(s, k)..])
  }

  /** Offset just after the last newline: `rfind(b"\n") + 1`. */
  function TailStart(s: string): (k: nat)
    ensures k <= |s|
    ensures forall i :: k <= i < |s| ==> s[i] != '\n'
    ensures k > 0 ==> s[k - 1] == '\n'
  {
    if s == "" then 0
    else if s[|s| - 1] == '\n' then |s|
    else TailStart(s[..|s| - 1])
  }

  predicate NoNewline(s: string) {
    forall i :: 0 <= i < |s| ==> s[i] != '\n'
  }

  function Line<E>(c: Codec<E>, e: E): string {
    c.encode(e) + "\n"
  }

  /** The journal text of a list of records. */
  function Text<E>(c: Codec<E>, log: seq<E>): string {
    if log == [] then "" else Text(c, log[..|log| - 1]) + Line(c, log[|log| - 1])
  }

  /** Every record carries its own position. */
  ghost predicate Numbered<E>(c: Codec<E>, log: seq<E>) {
    forall i :: 0 <= i < |log| ==> c.numbered(log[i], i + 1)
  }

  /** No record prints a raw line boundary. */
  ghost predicate Readable<E>(c: Codec<E>, log: seq<E>) {
    forall i :: 0 <= i < |log| ==> BreakFree(c.encode(log[i]))
  }

  /** The records of a list of lines, numbered from `first`. */
  function Parse<E>(c: Codec<E>, lines: seq<string>, first: nat): Option<seq<E>> {
    if lines == [] then Some([])
    else
      var e := c.decode(lines[0]);
      if e.None? || !c.numbered(e.value, first) then None
      else
        var rest := Parse(c, lines[1..], first + 1);
        if rest.None? then None else Some([e.value] + rest.value)
  }

  /** What the reader does with a file: the repaired text, then its records. */
  function Repaired<E>(c: Codec<E>, text: string): Option<string> {
    var k := TailStart(text);
    if k == |text| then Some(text)
    else if c.torn(text[k..]) then Some(text[..k])
    else None
  }

  function Read<E>(c: Codec<E>, text: string): Option<seq<E>> {
    var t := Repaired(c, text);
    if t.None? then None else Parse(c, SplitLines(t.value), 1)
  }

  // ---- text of a list ----

  lemma TextEnds<E>(c: Codec<E>, log: seq<E>)
    ensures log != [] ==> |Text(c, log)| > 0 && Text(c, log)[|Text(c, log)| - 1] == '\n'
  {
  }

  lemma TextSnoc<E>(c: Codec<E>, log: seq<E>, e: E)
    ensures Text(c, log + [e]) == Text(c, log) + Line(c, e)
  {
    assert (log + [e])[..|log|] == log;
  }

  lemma {:induction false} TextCons<E>(c: Codec<E>, e: E, log: seq<E>)
    ensures Text(c, [e] + log) == Line(c, e) + Text(c, log)
  {
    if log == [] {
      assert [e] + log == [] + [e];
      TextSnoc(c, [], e);
      assert "" + Line(c, e) == Line(c, e) + "";
    } else {
      var front, last := log[..|log| - 1], log[|log| - 1];
      assert log == front + [last];
      ConcatAssociative([e], front, [last]);
      TextSnoc(c, [e] + front, last);
      TextSnoc(c, front, last);
      TextCons(c, e, front);
      ConcatAssociative(Line(c, e), Text(c, front), Line(c, last));
    }
  }

  lemma TailStartOf<E>(c: Codec<E>, log: seq<E>, tail: string)
    requires NoNewline(tail)
    ensures TailStart(Text(c, log) + tail) == |Text(c, log)|
  {
    TextEnds(c, log);
    TailStartIs(Text(c, log), tail);
  }

  lemma {:induction false} TailStartIs(text: string, tail: string)
    requires NoNewline(tail)
    requires text != "" ==> text[|text| - 1] == '\n'
    ensures TailStart(text + tail) == |text|
    decreases |tail|
  {
    if tail == "" {
      assert text + tail == text;
    } else {
      assert (text + tail)[..|text + tail| - 1] == text + tail[..|tail| - 1];
      TailStartIs(text, tail[..|tail| - 1]);
    }
  }

  // ---- splitting ----

  lemma FirstBreakIs(s: string, k: nat)
    requires k < |s| && IsBreak(s[k])
    requires forall i :: 0 <= i < k ==> !IsBreak(s[i])
    ensures FirstBreak(s) == k
  {
  }

  lemma SplitTerminated(line: string, rest: string)
    requires BreakFree(line)
    ensures SplitLines(line + "\n" + rest) == [line] + SplitLines(rest)
  {
    var s := line + "\n" + rest;
    FirstBreakIs(s, |line|);
    assert s[..|line|] == line;
    assert s[|line| + 1..] == rest;
  }

  /** A raw boundary inside a record cuts off a proper prefix of it. */
  lemma SplitInside(line: string, rest: string)
    requires !BreakFree(line)
    ensures var s := SplitLines(line + "\n" + rest);
      s != [] && exists k :: 0 <= k < |line| && s[0] == line[..k]
  {
    var s := line + "\n" + rest;
    var j :| 0 <= j < |line| && IsBreak(line[j]);
    assert s[j] == line[j];
    var k := FirstBreak(s);
    assert k <= j;
    assert s[..k] == line[..k];
  }

  /** A record without a raw boundary is read off the front. */
  lemma HeadParsed<E(!new)>(c: Codec<E>, e: E, text: string, first: nat)
    requires ValidCodec(c) && c.numbered(e, first) && BreakFree(c.encode(e))
    ensures Parse(c, SplitLines(Line(c, e) + text), first) ==
      var rest := Parse(c, SplitLines(text), first + 1);
      if rest.None? then None else Some([e] + rest.value)
  {
    SplitTerminated(c.encode(e), text);
    var lines := SplitLines(Line(c, e) + text);
    assert lines[0] == c.encode(e) && lines[1..] == SplitLines(text);
  }

  /** A record with one makes the first line undecodable. */
  lemma HeadRefused<E(!new)>(c: Codec<E>, e: E, text: string, first: nat)
    requires ValidCodec(c) && !BreakFree(c.encode(e))
    ensures Parse(c, SplitLines(Line(c, e) + text), first) == None
  {
    SplitInside(c.encode(e), text);
    var lines := SplitLines(Line(c, e) + text);
    var k :| 0 <= k < |c.encode(e)| && lines[0] == c.encode(e)[..k];
    assert c.decode(lines[0]) == None;
  }

  lemma ReadableCons<E>(c: Codec<E>, e: E, rest: seq<E>)
    ensures Readable(c, [e] + rest) <==> BreakFree(c.encode(e)) && Readable(c, rest)
  {
    var log := [e] + rest;
    assert log[0] == e;
    assert forall i :: 0 <= i < |rest| ==> rest[i] == log[i + 1];
    assert forall i :: 0 < i < |log| ==> log[i] == rest[i - 1];
  }

  /** Reading the text of a list gives the list back, or nothing when some record prints a raw boundary. */
  ghost predicate ParsesBack<E>(c: Codec<E>, log: seq<E>, first: nat) {
    Parse(c, SplitLines(Text(c, log)), first) == if Readable(c, log) then Some(log) else None
  }

  lemma ParseCons<E(!new)>(c: Codec<E>, e: E, rest: seq<E>, first: nat)
    requires ValidCodec(c) && c.numbered(e, first) && ParsesBack(c, rest, first + 1)
    ensures ParsesBack(c, [e] + rest, first)
  {
    TextCons(c, e, rest);
    ReadableCons(c, e, rest);
    if BreakFree(c.encode(e)) {
      HeadParsed(c, e, Text(c, rest), first);
    } else {
      HeadRefused(c, e, Text(c, rest), first);
    }
  }

  lemma {:induction false} ParseText<E(!new)>(c: Codec<E>, log: seq<E>, first: nat)
    requires ValidCodec(c)
    requires forall i :: 0 <= i < |log| ==> c.numbered(log[i], first + i)
    ensures ParsesBack(c, log, first)
  {
    if log != [] {
      var rest := log[1..];
      assert forall i :: 0 <= i < |rest| ==> rest[i] == log[i + 1];
      ParseText(c, rest, first + 1);
      assert c.numbered(log[0], first + 0);
      ParseCons(c, log[0], rest, first);
      assert log == [log[0]] + rest;
    }
  }

  lemma RepairedText<E(!new)>(c: Codec<E>, log: seq<E>, tail: string)
    requires NoNewline(tail)
    ensures Repaired(c, Text(c, log) + tail) ==
      if tail == "" || c.torn(tail) then Some(Text(c, log)) else None
  {
    var text := Text(c, log) + tail;
    TailStartOf(c, log, tail);
    assert text[..|Text(c, log)|] == Text(c, log);
    assert text[|Text(c, log)|..] == tail;
    assert tail == "" ==> text == Text(c, log);
  }

  /**
    A read of the text of `log` followed by an unterminated tail returns
    exactly `log`, or refuses; and it returns exactly when no record prints a
    raw line boundary and the tail is absent or recognised as torn.
   */
  lemma ReadBack<E(!new)>(c: Codec<E>, log: seq<E>, tail: string)
    requires ValidCodec(c) && Numbered(c, log) && NoNewline(tail)
    ensures Read(c, Text(c, log) + tail) ==
      if Readable(c, log) && (tail == "" || c.torn(tail)) then Some(log) else None
  {
    RepairedText(c, log, tail);
    assert forall i :: 0 <= i < |log| ==> c.numbered(log[i], 1 + i);
    ParseText(c, log, 1);
  }

  /**
    A crash after `k` characters of an append leaves either the new list or
    the old list with an unterminated tail that is a prefix of the document.
   */
  lemma TornAppend<E(!new)>(c: Codec<E>, log: seq<E>, e: E, k: nat)
    requires ValidCodec(c) && k <= |Line(c, e)|
    ensures k == |Line(c, e)| ==> Text(c, log) + Line(c, e)[..k] == Text(c, log + [e])
    ensures k < |Line(c, e)| ==> Line(c, e)[..k] == c.encode(e)[..k] && NoNewline(c.encode(e)[..k])
  {
    TextSnoc(c, log, e);
    if k == |Line(c, e)| {
      assert Line(c, e)[..k] == Line(c, e);
    } else {
      assert Line(c, e)[..k] == c.encode(e)[..k];
    }
  }

  /**
    A journal whose append was cut after any number of characters reads back as
    exactly the new list, exactly the old list, or not at all. It is refused
    precisely when some record prints a raw line boundary, or when the cut left
    a fragment that is not recognised as torn; the document without its newline
    is always such a fragment.
   */
  lemma AppendCutAnywhere<E(!new)>(c: Codec<E>, log: seq<E>, e: E, k: nat)
    requires ValidCodec(c) && Numbered(c, log + [e]) && k <= |Line(c, e)|
    ensures var read := Read(c, Text(c, log) + Line(c, e)[..k]);
      if k == |Line(c, e)| then
        read == if Readable(c, log + [e]) then Some(log + [e]) else None
      else
        var fragment := c.encode(e)[..k];
        read == if Readable(c, log) && (fragment == "" || (k < |c.encode(e)| && c.torn(fragment))) then Some(log)
          else None
  {
    TornAppend(c, log, e, k);
    assert forall i :: 0 <= i < |log| ==> log[i] == (log + [e])[i];
    if k == |Line(c, e)| {
      assert Text(c, log + [e]) + "" == Text(c, log + [e]);
      ReadBack(c, log + [e], "");
    } else {
      ReadBack(c, log, c.encode(e)[..k]);
      assert k == |c.encode(e)| ==> c.encode(e)[..k] == c.encode(e);
    }
  }
}
