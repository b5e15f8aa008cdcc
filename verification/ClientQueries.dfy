/** The query the client itself renders, `urlencode` over printed JSON, and what the server reads in it. */
module ClientQueries {
  import opened Wrappers
  import opened JsonNesting
  import opened QueryCodec

  // ----- printing -----

  const QUOTE: Byte := 34
  const BACKSLASH: Byte := 92

  function LowerHex(v: int): (b: Byte)
    requires 0 <= v < 16
    ensures b != SPACE
  {
    if v < 10 then 48 + v else 87 + v
  }

  /** The escape of one 16-bit unit. */
  function Unit(u: int): (r: Bytes)
    requires 0 <= u < 0x1_0000
    ensures SPACE !in r
  {
    [BACKSLASH, 117, LowerHex(u / 0x1000), LowerHex(u / 0x100 % 0x10), LowerHex(u / 0x10 % 0x10), LowerHex(u % 0x10)]
  }

  /** A character inside a string of ASCII JSON. */
  function Escaped(c: char): Bytes {
    var n := c as int;
    if n == 34 || n == 92 then [BACKSLASH, n]
    else if n == 10 then [BACKSLASH, 110]
    else if n == 13 then [BACKSLASH, 114]
    else if n == 9 then [BACKSLASH, 116]
    else if n == 8 then [BACKSLASH, 98]
    else if n == 12 then [BACKSLASH, 102]
    else if 32 <= n <= 126 then [n]
    else if n < 0x1_0000 then Unit(n)
    else Unit(0xD800 + (n - 0x1_0000) / 0x400) + Unit(0xDC00 + (n - 0x1_0000) % 0x400)
  }

  function EscapedAll(s: string): Bytes {
    if s == [] then [] else Escaped(s[0]) + EscapedAll(s[1..])
  }

  function Quoted(s: string): Bytes { [QUOTE] + EscapedAll(s) + [QUOTE] }

  predicate IsLiteralByte(c: char) {
    'a' <= c <= 'z' || 'A' <= c <= 'Z' || '0' <= c <= '9' || c == '+' || c == '-' || c == '.'
  }

  predicate IsLiteral(s: string) { s != "" && forall i :: 0 <= i < |s| ==> IsLiteralByte(s[i]) }

  function Ascii(s: string): Bytes {
    seq(|s|, i requires 0 <= i < |s| => if s[i] as int < 128 then s[i] as int else 63)
  }

  /** `json.dumps` with its separators and sorted keys, of a value with its members in that order. */
  function Print(t: Tree): Bytes
    decreases t, 1
  {
    match t
    case Leaf(literal) => Ascii(literal)
    case Text(text) => Quoted(text)
    case List(children) => [91] + PrintAll(children) + [93]
    case Object(keys, children) => [123] + PrintMembers(keys, children) + [125]
  }

  function PrintAll(ts: seq<Tree>): Bytes
    decreases ts, 0
  {
    if ts == [] then []
    else if |ts| == 1 then Print(ts[0])
    else Print(ts[0]) + [44] + PrintAll(ts[1..])
  }

  function PrintMembers(keys: seq<string>, ts: seq<Tree>): Bytes
    decreases ts, 0
  {
    if ts == [] || keys == [] then []
    else if |ts| == 1 then Quoted(keys[0]) + [58] + Print(ts[0])
    else Quoted(keys[0]) + [58] + Print(ts[0]) + [44] + PrintMembers(keys[1..], ts[1..])
  }

  /** The literals the library writes for numbers, booleans and null. */
  type Literals = string -> bool

  /** A value as the library prints it. */
  predicate Printable(t: Tree, writes: Literals) {
    match t
    case Leaf(literal) => writes(literal)
    case Text(_) => true
    case List(children) => forall i :: 0 <= i < |children| ==> Printable(children[i], writes)
    case Object(keys, children) =>
      |keys| == |children| && forall i :: 0 <= i < |children| ==> Printable(children[i], writes)
  }

  predicate DistinctTexts(keys: seq<string>) { forall i, j :: 0 <= i < j < |keys| ==> keys[i] != keys[j] }

  /** No object has a key twice. */
  predicate Unique(t: Tree) {
    IsContainer(t) ==>
      && (t.Object? ==> DistinctTexts(t.keys))
      && forall i :: 0 <= i < |t.children| ==> Unique(t.children[i])
  }

  /** The parser reads what the printer writes and refuses keys that appear twice; it may give up on
      values nested more deeply than the server takes. */
  ghost predicate Lawful(parse: Parser, writes: Literals) {
    && (forall l :: writes(l) ==> IsLiteral(l))
    && forall t: Tree :: Printable(t, writes) ==>
         || parse(Print(t)) == (if Unique(t) then Some(t) else None)
         || (Depth(t) > MAXIMUM_NESTING && parse(Print(t)) == None)
  }

  // ----- spaces and plus signs -----

  function PlusChar(c: char): char { if c == ' ' then '+' else c }

  function PlusText(s: string): string { seq(|s|, i requires 0 <= i < |s| => PlusChar(s[i])) }

  function PlusTexts(keys: seq<string>): seq<string> { seq(|keys|, i requires 0 <= i < |keys| => PlusText(keys[i])) }

  /** A value with every space in a string or a key turned into a plus sign. */
  function Plussed(t: Tree): Tree
    decreases t
  {
    match t
    case Leaf(literal) => t
    case Text(text) => Text(PlusText(text))
    case List(children) => List(seq(|children|, i requires 0 <= i < |children| => Plussed(children[i])))
    case Object(keys, children) =>
      Object(PlusTexts(keys), seq(|children|, i requires 0 <= i < |children| => Plussed(children[i])))
  }

  function PlussedAll(ts: seq<Tree>): (r: seq<Tree>)
    ensures |r| == |ts| && forall i :: 0 <= i < |ts| ==> r[i] == Plussed(ts[i])
  {
    seq(|ts|, i requires 0 <= i < |ts| => Plussed(ts[i]))
  }

  lemma {:induction false} SpacesJoin(a: Bytes, b: Bytes)
    ensures SpacesAsPlus(a + b) == SpacesAsPlus(a) + SpacesAsPlus(b)
  {
    if a == [] {
      assert a + b == b;
    } else {
      assert (a + b)[1..] == a[1..] + b;
      SpacesJoin(a[1..], b);
    }
  }

  lemma SpacelessStays(s: Bytes)
    requires SPACE !in s
    ensures SpacesAsPlus(s) == s
  {
    SpacesShow(s);
  }

  lemma CharPlussed(c: char)
    ensures SpacesAsPlus(Escaped(c)) == Escaped(PlusChar(c))
  {
    if c == ' ' {
      assert SpacesAsPlus([SPACE]) == [PLUS];
    } else {
      SpacelessStays(Escaped(c));
    }
  }

  lemma {:induction false} TextPlussed(s: string)
    ensures SpacesAsPlus(EscapedAll(s)) == EscapedAll(PlusText(s))
  {
    hide Escaped;
    if s != [] {
      assert PlusText(s)[1..] == PlusText(s[1..]);
      CharPlussed(s[0]);
      SpacesJoin(Escaped(s[0]), EscapedAll(s[1..]));
      TextPlussed(s[1..]);
    }
  }

  lemma QuotedPlussed(s: string)
    ensures SpacesAsPlus(Quoted(s)) == Quoted(PlusText(s))
  {
    hide EscapedAll;
    TextPlussed(s);
    SpacesJoin([QUOTE] + EscapedAll(s), [QUOTE]);
    SpacesJoin([QUOTE], EscapedAll(s));
    SpacelessStays([QUOTE]);
  }

  lemma Joined(head: Bytes, body: Bytes, tail: Bytes)
    requires SPACE !in head && SPACE !in tail
    ensures SpacesAsPlus(head + body + tail) == head + SpacesAsPlus(body) + tail
  {
    SpacesJoin(head + body, tail);
    SpacesJoin(head, body);
    SpacelessStays(head);
    SpacelessStays(tail);
  }

  lemma Separated(a: Bytes, separator: Byte, b: Bytes)
    requires separator != SPACE
    ensures SpacesAsPlus(a + [separator] + b) == SpacesAsPlus(a) + [separator] + SpacesAsPlus(b)
  {
    SpacesJoin(a + [separator], b);
    SpacesJoin(a, [separator]);
    SpacelessStays([separator]);
  }

  /** A printed value with its spaces turned into plus signs is the print of the value with its own turned. */
  lemma {:induction false} PrintPlussed(t: Tree, writes: Literals)
    requires Printable(t, writes) && forall l :: writes(l) ==> IsLiteral(l)
    ensures Print(Plussed(t)) == SpacesAsPlus(Print(t))
    decreases t, 1
  {
    hide Quoted, SpacesAsPlus;
    match t
    case Leaf(literal) =>
      assert SPACE !in Ascii(literal);
      SpacelessStays(Ascii(literal));
    case Text(text) => QuotedPlussed(text);
    case List(children) =>
      Joined([91], PrintAll(children), [93]);
      PrintAllPlussed(children, writes);
      assert Plussed(t).children == PlussedAll(children);
    case Object(keys, children) =>
      Joined([123], PrintMembers(keys, children), [125]);
      PrintMembersPlussed(keys, children, writes);
      assert Plussed(t).children == PlussedAll(children);
  }

  lemma {:induction false} PrintAllPlussed(ts: seq<Tree>, writes: Literals)
    requires (forall i :: 0 <= i < |ts| ==> Printable(ts[i], writes)) && forall l :: writes(l) ==> IsLiteral(l)
    ensures PrintAll(PlussedAll(ts)) == SpacesAsPlus(PrintAll(ts))
    decreases ts, 0
  {
    hide Print, Plussed;
    if ts == [] {
      SpacelessStays([]);
    } else {
      PrintPlussed(ts[0], writes);
      if |ts| > 1 {
        PrintAllPlussed(ts[1..], writes);
        assert PlussedAll(ts)[1..] == PlussedAll(ts[1..]);
        Separated(Print(ts[0]), 44, PrintAll(ts[1..]));
      }
    }
  }

  lemma {:induction false} PrintMembersPlussed(keys: seq<string>, ts: seq<Tree>, writes: Literals)
    requires |keys| == |ts| && (forall i :: 0 <= i < |ts| ==> Printable(ts[i], writes))
    requires forall l :: writes(l) ==> IsLiteral(l)
    ensures PrintMembers(PlusTexts(keys), PlussedAll(ts)) == SpacesAsPlus(PrintMembers(keys, ts))
    decreases ts, 0
  {
    hide Print, Plussed, Quoted, PlusText;
    if ts == [] {
      SpacelessStays([]);
    } else {
      QuotedPlussed(keys[0]);
      PrintPlussed(ts[0], writes);
      Separated(Quoted(keys[0]), 58, Print(ts[0]));
      if |ts| > 1 {
        PrintMembersPlussed(keys[1..], ts[1..], writes);
        assert PlussedAll(ts)[1..] == PlussedAll(ts[1..]) && PlusTexts(keys)[1..] == PlusTexts(keys[1..]);
        Separated(Quoted(keys[0]) + [58] + Print(ts[0]), 44, PrintMembers(keys[1..], ts[1..]));
      }
    }
  }

  lemma {:induction false} PlussedPrintable(t: Tree, writes: Literals)
    requires Printable(t, writes)
    ensures Printable(Plussed(t), writes)
  {
    if IsContainer(t) {
      forall i | 0 <= i < |t.children|
        ensures Printable(Plussed(t.children[i]), writes)
      {
        PlussedPrintable(t.children[i], writes);
      }
    }
  }

  lemma {:induction false} PlussedDepth(t: Tree)
    ensures Depth(Plussed(t)) == Depth(t)
    decreases t, 1
  {
    if IsContainer(t) {
      PlussedDeepest(t.children);
      assert Plussed(t).children == PlussedAll(t.children);
    }
  }

  lemma {:induction false} PlussedDeepest(ts: seq<Tree>)
    ensures Deepest(PlussedAll(ts)) == Deepest(ts)
    decreases ts, 0
  {
    hide Plussed;
    if ts != [] {
      var before := ts[..|ts| - 1];
      assert PlussedAll(ts)[..|ts| - 1] == PlussedAll(before);
      PlussedDeepest(before);
      PlussedDepth(ts[|ts| - 1]);
    }
  }

  // ----- the query -----

  type Pair = (Bytes, Bytes)

  /** `urlencode`. */
  function UrlEncode(pairs: seq<Pair>): Bytes {
    if pairs == [] then []
    else
      var field := QuotePlus(pairs[0].0) + [EQUALS] + QuotePlus(pairs[0].1);
      if |pairs| == 1 then field else field + [AMPERSAND] + UrlEncode(pairs[1..])
  }

  lemma {:induction false} UnreservedPlus(s: Bytes)
    requires forall b :: b in s ==> Unreserved(b)
    ensures QuotePlus(s) == s
  {
    if s != [] {
      UnreservedPlus(s[1..]);
      assert Unreserved(s[0]) && s[0] != SPACE;
      assert [s[0]][1..] == [] && Quote([s[0]]) == [s[0]];
      assert [s[0]] + s[1..] == s;
    }
  }

  lemma {:induction false} PlusIsPlain(s: Bytes)
    ensures AMPERSAND !in QuotePlus(s)
  {
    if s != [] {
      PlusIsPlain(s[1..]);
      QuotedIsPlain([s[0]]);
    }
  }

  /** The cursor the server is handed for a cursor text of the client. */
  lemma TakesPlussed(parse: Parser, arguments: Arguments, text: Bytes)
    requires arguments.after.None?
    ensures var cursor := parse(SpacesAsPlus(text));
      Take(parse, arguments, AFTER + [EQUALS] + QuotePlus(text)) ==
        if cursor.Some? && cursor.value.Object? && Depth(cursor.value) <= MAXIMUM_NESTING
        then Some(arguments.(after := cursor)) else None
  {
    hide QuotePlus, SpacesAsPlus, Depth, Decoded;
    var field := AFTER + [EQUALS] + QuotePlus(text);
    CutAfterName(AFTER, QuotePlus(text));
    assert field[..|AFTER|] == AFTER && field[|AFTER| + 1..] == QuotePlus(text);
    PlainDecodes(AFTER);
    DecodeQuotedPlus(text);
  }

  /** What the server makes of the cursor text. */
  function Seen(cursor: Tree): Option<Tree> {
    if Unique(Plussed(cursor)) && Depth(cursor) <= MAXIMUM_NESTING then Some(Plussed(cursor)) else None
  }

  lemma SeesPlussed(parse: Parser, writes: Literals, cursor: Tree)
    requires Lawful(parse, writes) && Printable(cursor, writes) && cursor.Object?
    ensures var read := parse(SpacesAsPlus(Print(cursor)));
      (if read.Some? && read.value.Object? && Depth(read.value) <= MAXIMUM_NESTING then read else None) == Seen(cursor)
  {
    hide Print, SpacesAsPlus, Unique, Depth, Printable;
    PrintPlussed(cursor, writes);
    PlussedPrintable(cursor, writes);
    PlussedDepth(cursor);
  }

  /** A cursor comes back as it was exactly if its text has no space. */
  lemma SeenExactly(parse: Parser, writes: Literals, cursor: Tree)
    requires Lawful(parse, writes) && Printable(cursor, writes) && Unique(cursor) && Depth(cursor) <= MAXIMUM_NESTING
    ensures Seen(cursor) == Some(cursor) <==> SPACE !in Print(cursor)
  {
    hide Print, SpacesAsPlus, Depth, Plussed;
    PrintPlussed(cursor, writes);
    SpacesShow(Print(cursor));
    PlussedPrintable(cursor, writes);
    PlussedDepth(cursor);
    assert Plussed(cursor) == cursor ==> Print(Plussed(cursor)) == Print(cursor);
  }

  /** The client's whole query: the server reads the limit, and the cursor with every space of its text
      turned into a plus sign; it refuses the query if that makes two keys of an object one, or if the
      cursor is too deep.  So the query means to the server what it meant to the client if and only if the
      cursor's text has no space. */
  lemma ClientQueryExactly(parse: Parser, writes: Literals, limit: nat, cursor: Tree)
    requires Lawful(parse, writes) && Printable(cursor, writes) && cursor.Object? && Unique(cursor)
    requires limit > 0 && |Decimal(limit)| <= MAXIMUM_DIGITS
    ensures var limited, after := (LIMIT, Decimal(limit)), (AFTER, Print(cursor));
      var read := if Seen(cursor).Some? then Some(Arguments(Some(limit), Seen(cursor))) else None;
      && QueryArguments(parse, UrlEncode([limited])) == Some(Arguments(Some(limit), None))
      && QueryArguments(parse, UrlEncode([limited, after])) == read
      && QueryArguments(parse, UrlEncode([after, limited])) == read
      && (read == Some(Arguments(Some(limit), Some(cursor)))
          <==> SPACE !in Print(cursor) && Depth(cursor) <= MAXIMUM_NESTING)
  {
    hide Print, Seen, Take, TakeAll, Fields, Decimal, QuotePlus, SpacesAsPlus, Unique, Depth, Printable, Lawful,
         Plussed;
    var text := Print(cursor);
    Rendered(limit, text);
    var a, b := LimitField(limit), AFTER + [EQUALS] + QuotePlus(text);
    OneField(parse, a);
    TwoFields(parse, a, b);
    TwoFields(parse, b, a);
    SeesPlussed(parse, writes, cursor);
    TakesLimit(parse, NoArguments, limit);
    TakesPlussed(parse, NoArguments.(limit := Some(limit)), text);
    TakesPlussed(parse, NoArguments, text);
    if Seen(cursor).Some? { TakesLimit(parse, NoArguments.(after := Seen(cursor)), limit); }
    if Depth(cursor) <= MAXIMUM_NESTING { SeenExactly(parse, writes, cursor); } else { TooDeep(cursor); }
  }

  lemma TooDeep(cursor: Tree)
    requires Depth(cursor) > MAXIMUM_NESTING
    ensures Seen(cursor).None?
  {
  }

  lemma OneField(parse: Parser, a: Bytes)
    requires AMPERSAND !in a && a != []
    ensures QueryArguments(parse, a) == Take(parse, NoArguments, a)
  {
    FieldsOfOne(a);
    assert [a][..0] == [];
    assert TakeAll(parse, []) == Some(NoArguments);
  }

  lemma Rendered(limit: nat, text: Bytes)
    ensures var a, b := LimitField(limit), AFTER + [EQUALS] + QuotePlus(text);
      && AMPERSAND !in a && AMPERSAND !in b
      && UrlEncode([(LIMIT, Decimal(limit))]) == a
      && UrlEncode([(LIMIT, Decimal(limit)), (AFTER, text)]) == a + [AMPERSAND] + b
      && UrlEncode([(AFTER, text), (LIMIT, Decimal(limit))]) == b + [AMPERSAND] + a
  {
    hide Decimal, QuotePlus;
    DecimalIsRead(limit);
    UnreservedPlus(LIMIT);
    UnreservedPlus(AFTER);
    UnreservedPlus(Decimal(limit));
    PlusIsPlain(text);
  }
}
