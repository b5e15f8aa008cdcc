/** The query string of a read route: strict percent decoding, the two arguments it may carry, and
    the encoders that produce it. */
module QueryCodec {
  import opened Wrappers
  import opened JsonNesting

  type Byte = x: int | 0 <= x < 256
  type Bytes = seq<Byte>

  const PERCENT: Byte := 37
  const AMPERSAND: Byte := 38
  const EQUALS: Byte := 61
  const LIMIT: Bytes := [108, 105, 109, 105, 116]
  const AFTER: Bytes := [97, 102, 116, 101, 114]

  // ----- percent encoding, section 2.1 of RFC 3986 -----

  function HexValue(b: Byte): Option<int> {
    if 48 <= b <= 57 then Some(b - 48)
    else if 65 <= b <= 70 then Some(b - 55)
    else if 97 <= b <= 102 then Some(b - 87)
    else None
  }

  function HexDigit(v: int): (b: Byte)
    requires 0 <= v < 16
    ensures HexValue(b) == Some(v)
  {
    if v < 10 then 48 + v else 55 + v
  }

  /** The bytes `quote(..., safe="")` leaves alone: letters, digits and `_.-~`. */
  predicate Unreserved(b: Byte) {
    48 <= b <= 57 || 65 <= b <= 90 || 97 <= b <= 122 || b in {95, 46, 45, 126}
  }

  function Quote(s: Bytes): Bytes {
    if s == [] then []
    else if Unreserved(s[0]) then [s[0]] + Quote(s[1..])
    else [PERCENT, HexDigit(s[0] / 16), HexDigit(s[0] % 16)] + Quote(s[1..])
  }

  /** What a string of bytes decodes to: `None` when an escape is cut short or is not hexadecimal. */
  function Decoded(s: Bytes): Option<Bytes> {
    if s == [] then Some([])
    else if s[0] != PERCENT then
      var rest := Decoded(s[1..]);
      if rest.Some? then Some([s[0]] + rest.value) else None
    else if |s| < 3 || HexValue(s[1]).None? || HexValue(s[2]).None? then None
    else
      var rest := Decoded(s[3..]);
      if rest.Some? then Some([16 * HexValue(s[1]).value + HexValue(s[2]).value] + rest.value) else None
  }

  /** Decoding goes on after a decoded part. */
  lemma {:induction false} DecodedFrom(s: Bytes, t: Bytes)
    requires Decoded(s).Some?
    ensures Decoded(s + t) == if Decoded(t).Some? then Some(Decoded(s).value + Decoded(t).value) else None
    decreases |s|
  {
    if s == [] {
      assert s + t == t;
      assert forall d: Bytes :: [] + d == d;
    } else {
      var n := if s[0] != PERCENT then 1 else 3;
      assert (s + t)[n..] == s[n..] + t;
      DecodedFrom(s[n..], t);
      assert forall x: Byte, a: Bytes, b: Bytes :: [x] + (a + b) == ([x] + a) + b;
    }
  }

  /** `_strict_percent_decode`. */
  method StrictPercentDecode(value: Bytes) returns (decoded: Option<Bytes>)
    ensures decoded == Decoded(value)
  {
    decoded := Some([]);
    var index := 0;
    while index < |value|
      invariant 0 <= index <= |value| && decoded.Some?
      invariant Decoded(value[..index]) == decoded
    {
      var byte := value[index];
      assert value == value[..index] + value[index..];
      if byte != PERCENT {
        DecodesOn(value, index, 1);
        decoded := Some(decoded.value + [byte]);
        index := index + 1;
      } else {
        DecodedFrom(value[..index], value[index..]);
        if index + 2 >= |value| { return None; }
        var high, low := HexValue(value[index + 1]), HexValue(value[index + 2]);
        if high.None? || low.None? { return None; }
        DecodesOn(value, index, 3);
        decoded := Some(decoded.value + [16 * high.value + low.value]);
        index := index + 3;
      }
    }
    assert value[..|value|] == value;
  }

  /** One more byte, or one more escape, of an input decoded so far. */
  lemma DecodesOn(value: Bytes, index: nat, n: nat)
    requires index + n <= |value| && Decoded(value[..index]).Some?
    requires if n == 1 then value[index] != PERCENT
             else n == 3 && value[index] == PERCENT
                  && HexValue(value[index + 1]).Some? && HexValue(value[index + 2]).Some?
    ensures Decoded(value[..index + n]).Some?
    ensures Decoded(value[..index + n]).value == Decoded(value[..index]).value +
              [if n == 1 then value[index]
               else 16 * HexValue(value[index + 1]).value + HexValue(value[index + 2]).value]
  {
    var next := value[index..index + n];
    assert value[..index + n] == value[..index] + next;
    assert next[n..] == [];
    DecodedFrom(value[..index], next);
  }

  /** Decoding inverts encoding, for every string of bytes. */
  lemma {:induction false} DecodeQuoted(s: Bytes)
    ensures Decoded(Quote(s)) == Some(s)
  {
    if s != [] {
      DecodeQuoted(s[1..]);
      var q := Quote(s);
      assert [s[0]] + s[1..] == s;
      if Unreserved(s[0]) {
        assert q[1..] == Quote(s[1..]);
      } else {
        assert q[3..] == Quote(s[1..]);
        assert q[0] == PERCENT && q[1] == HexDigit(s[0] / 16) && q[2] == HexDigit(s[0] % 16);
      }
    }
  }

  // ----- the other encoder -----

  const SPACE: Byte := 32
  const PLUS: Byte := 43

  /** `urlencode` writes a space as `+`, and everything else as `quote` does. */
  function QuotePlus(s: Bytes): Bytes {
    if s == [] then []
    else (if s[0] == SPACE then [PLUS] else Quote([s[0]])) + QuotePlus(s[1..])
  }

  function SpacesAsPlus(s: Bytes): Bytes {
    if s == [] then [] else [if s[0] == SPACE then PLUS else s[0]] + SpacesAsPlus(s[1..])
  }

  lemma {:induction false} DecodeQuotedPlus(s: Bytes)
    ensures Decoded(QuotePlus(s)) == Some(SpacesAsPlus(s))
  {
    if s != [] {
      DecodeQuotedPlus(s[1..]);
      var first := if s[0] == SPACE then [PLUS] else Quote([s[0]]);
      DecodeQuoted([s[0]]);
      PlainDecodes([PLUS]);
      DecodedFrom(first, QuotePlus(s[1..]));
    }
  }

  lemma {:induction false} SpacesShow(s: Bytes)
    ensures |SpacesAsPlus(s)| == |s|
    ensures SpacesAsPlus(s) == s <==> SPACE !in s
  {
    if s != [] {
      SpacesShow(s[1..]);
      assert [s[0]] + s[1..] == s;
      assert SpacesAsPlus(s)[1..] == SpacesAsPlus(s[1..]);
    }
  }

  /** Strict decoding inverts the client's own encoder exactly on values without a space; a space
      comes back as a plus sign. */
  lemma PlusRoundTripExactly(s: Bytes)
    ensures Decoded(QuotePlus(s)) == Some(s) <==> SPACE !in s
  {
    DecodeQuotedPlus(s);
    SpacesShow(s);
  }

  function Escapes(s: Bytes): nat {
    if s == [] then 0
    else if s[0] == PERCENT && |s| >= 3 then 1 + Escapes(s[3..])
    else Escapes(s[1..])
  }

  /** Every escape is three bytes for one; nothing else changes the length. */
  lemma {:induction false} DecodedLength(s: Bytes)
    requires Decoded(s).Some?
    ensures |Decoded(s).value| == |s| - 2 * Escapes(s)
    decreases |s|
  {
    if s != [] {
      DecodedLength(s[if s[0] != PERCENT then 1 else 3..]);
    }
  }

  lemma {:induction false} QuotedIsPlain(s: Bytes)
    ensures forall b :: b in Quote(s) ==> b == PERCENT || Unreserved(b)
  {
    if s != [] { QuotedIsPlain(s[1..]); }
  }

  // ----- decimal numbers -----

  const MAXIMUM_DIGITS := 4300

  function Decimal(n: nat): Bytes {
    if n < 10 then [48 + n] else Decimal(n / 10) + [48 + n % 10]
  }

  predicate IsDigit(b: Byte) { 48 <= b <= 57 }

  /** `[1-9][0-9]*`. */
  predicate IsDecimal(s: Bytes) {
    s != [] && 49 <= s[0] <= 57 && forall i :: 0 <= i < |s| ==> IsDigit(s[i])
  }

  function ValueOf(s: Bytes): int {
    if s == [] then 0 else 10 * ValueOf(s[..|s| - 1]) + (s[|s| - 1] as int - 48)
  }

  lemma {:induction false} DecimalIsRead(n: nat)
    ensures ValueOf(Decimal(n)) == n && (n > 0 ==> IsDecimal(Decimal(n)))
    ensures forall b :: b in Decimal(n) ==> IsDigit(b)
  {
    if n >= 10 {
      DecimalIsRead(n / 10);
      var d := Decimal(n);
      assert d[..|d| - 1] == Decimal(n / 10);
    } else {
      assert Decimal(n)[..0] == [];
    }
  }

  // ----- splitting -----

  /** `query_string.split(b"&")`. */
  function Fields(s: Bytes): seq<Bytes> {
    if s == [] then [[]]
    else
      var rest := Fields(s[1..]);
      if s[0] == AMPERSAND then [[]] + rest else [[s[0]] + rest[0]] + rest[1..]
  }

  lemma {:induction false} FieldsOfJoin(a: Bytes, b: Bytes)
    requires AMPERSAND !in a
    ensures Fields(a + [AMPERSAND] + b) == [a] + Fields(b)
  {
    var s := a + [AMPERSAND] + b;
    if a == [] {
      assert s[1..] == b;
    } else {
      assert s[1..] == a[1..] + [AMPERSAND] + b;
      FieldsOfJoin(a[1..], b);
      assert [a[0]] + a[1..] == a;
      assert ([a[1..]] + Fields(b))[1..] == Fields(b);
    }
  }

  lemma {:induction false} FieldsOfOne(a: Bytes)
    requires AMPERSAND !in a
    ensures Fields(a) == [a]
  {
    if a != [] {
      FieldsOfOne(a[1..]);
      assert [a[0]] + a[1..] == a;
    }
  }

  /** Position of the first `=`, or the length without one. */
  function Cut(s: Bytes): (n: nat)
    ensures n <= |s|
  {
    if s == [] || s[0] == EQUALS then 0 else 1 + Cut(s[1..])
  }

  lemma {:induction false} CutAfterName(name: Bytes, value: Bytes)
    requires EQUALS !in name
    ensures Cut(name + [EQUALS] + value) == |name|
  {
    if name != [] {
      assert (name + [EQUALS] + value)[1..] == name[1..] + [EQUALS] + value;
      CutAfterName(name[1..], value);
    }
  }

  // ----- arguments -----

  datatype Arguments = Arguments(limit: Option<int>, after: Option<Tree>)

  const NoArguments := Arguments(None, None)

  /** What the JSON and UTF-8 libraries make of a decoded value: `parse` is `None` for bytes that are
      not UTF-8, not JSON, or JSON with duplicate members, constants or non-finite numbers. */
  type Parser = Bytes -> Option<Tree>

  /** One field taken into the arguments so far; `None` refuses the whole query. */
  function Take(parse: Parser, arguments: Arguments, field: Bytes): Option<Arguments> {
    var cut := Cut(field);
    if cut == |field| then None
    else
      var name, value := Decoded(field[..cut]), Decoded(field[cut + 1..]);
      if name.None? || value.None? then None
      else if name.value == LIMIT then
        if arguments.limit.Some? || !IsDecimal(value.value) || |value.value| > MAXIMUM_DIGITS then None
        else Some(arguments.(limit := Some(ValueOf(value.value))))
      else if name.value == AFTER then
        if arguments.after.Some? then None
        else
          var cursor := parse(value.value);
          if cursor.None? || !cursor.value.Object? || Depth(cursor.value) > MAXIMUM_NESTING then None
          else Some(arguments.(after := cursor))
      else None
  }

  function TakeAll(parse: Parser, fields: seq<Bytes>): Option<Arguments> {
    if fields == [] then Some(NoArguments)
    else
      var before := TakeAll(parse, fields[..|fields| - 1]);
      if before.None? then None else Take(parse, before.value, fields[|fields| - 1])
  }

  function QueryArguments(parse: Parser, query: Bytes): Option<Arguments> {
    if query == [] then Some(NoArguments) else TakeAll(parse, Fields(query))
  }

  lemma {:induction false} RefusedStays(parse: Parser, fields: seq<Bytes>, n: nat)
    requires n <= |fields| && TakeAll(parse, fields[..n]).None?
    ensures TakeAll(parse, fields).None?
  {
    if n == |fields| {
      assert fields[..n] == fields;
    } else {
      assert fields[..|fields| - 1][..n] == fields[..n];
      RefusedStays(parse, fields[..|fields| - 1], n);
    }
  }

  /** `_decode_http_read_query`. */
  method DecodeReadQuery(parse: Parser, query: Bytes) returns (r: Option<Arguments>)
    ensures r == QueryArguments(parse, query)
  {
    if query == [] { return Some(NoArguments); }
    var fields := Fields(query);
    var arguments := NoArguments;
    for i := 0 to |fields|
      invariant TakeAll(parse, fields[..i]) == Some(arguments)
    {
      var field := fields[i];
      assert fields[..i + 1][..i] == fields[..i];
      assert TakeAll(parse, fields[..i + 1]) == Take(parse, arguments, field);
      var taken := TakeField(parse, arguments, field);
      if taken.None? {
        RefusedStays(parse, fields, i + 1);
        return None;
      }
      arguments := taken.value;
    }
    assert fields[..|fields|] == fields;
    return Some(arguments);
  }

  /** The body of the loop over fields. */
  method TakeField(parse: Parser, arguments: Arguments, field: Bytes) returns (r: Option<Arguments>)
    ensures r == Take(parse, arguments, field)
  {
    var cut := Cut(field);
    if cut == |field| { return None; }
    var name := StrictPercentDecode(field[..cut]);
    var value := StrictPercentDecode(field[cut + 1..]);
    if name.None? || value.None? { return None; }
    if name.value == LIMIT {
      if arguments.limit.Some? || !IsDecimal(value.value) || |value.value| > MAXIMUM_DIGITS { return None; }
      return Some(arguments.(limit := Some(ValueOf(value.value))));
    }
    if name.value != AFTER || arguments.after.Some? { return None; }
    var cursor := parse(value.value);
    if cursor.None? || !cursor.value.Object? { return None; }
    var depth := Nesting(cursor.value);
    if depth > MAXIMUM_NESTING { return None; }
    return Some(arguments.(after := cursor));
  }

  // ----- round trip -----

  function LimitField(limit: nat): Bytes { LIMIT + [EQUALS] + Decimal(limit) }

  function AfterField(cursor: Bytes): Bytes { AFTER + [EQUALS] + Quote(cursor) }

  lemma {:induction false} PlainDecodes(s: Bytes)
    requires PERCENT !in s
    ensures Decoded(s) == Some(s)
  {
    if s != [] {
      PlainDecodes(s[1..]);
      assert [s[0]] + s[1..] == s;
    }
  }

  lemma TakesLimit(parse: Parser, arguments: Arguments, limit: nat)
    requires limit > 0 && |Decimal(limit)| <= MAXIMUM_DIGITS && arguments.limit.None?
    ensures Take(parse, arguments, LimitField(limit)) == Some(arguments.(limit := Some(limit)))
  {
    var field := LimitField(limit);
    DecimalIsRead(limit);
    CutAfterName(LIMIT, Decimal(limit));
    assert field[..|LIMIT|] == LIMIT && field[|LIMIT| + 1..] == Decimal(limit);
    PlainDecodes(LIMIT);
    PlainDecodes(Decimal(limit));
  }

  lemma TakesAfter(parse: Parser, arguments: Arguments, cursor: Bytes)
    requires arguments.after.None?
    requires parse(cursor).Some? && parse(cursor).value.Object?
    requires Depth(parse(cursor).value) <= MAXIMUM_NESTING
    ensures Take(parse, arguments, AfterField(cursor)) == Some(arguments.(after := parse(cursor)))
  {
    var field := AfterField(cursor);
    CutAfterName(AFTER, Quote(cursor));
    assert field[..|AFTER|] == AFTER && field[|AFTER| + 1..] == Quote(cursor);
    PlainDecodes(AFTER);
    DecodeQuoted(cursor);
  }

  /** The query the client renders decodes to exactly its limit and its cursor, in either order. */
  lemma QueryRoundTrip(parse: Parser, limit: nat, cursor: Bytes)
    requires limit > 0 && |Decimal(limit)| <= MAXIMUM_DIGITS
    requires parse(cursor).Some? && parse(cursor).value.Object?
    requires Depth(parse(cursor).value) <= MAXIMUM_NESTING
    ensures var a, b := LimitField(limit), AfterField(cursor);
      && QueryArguments(parse, a + [AMPERSAND] + b) == Some(Arguments(Some(limit), parse(cursor)))
      && QueryArguments(parse, b + [AMPERSAND] + a) == Some(Arguments(Some(limit), parse(cursor)))
  {
    var a, b := LimitField(limit), AfterField(cursor);
    DecimalIsRead(limit);
    QuotedIsPlain(cursor);
    assert AMPERSAND !in a && AMPERSAND !in b;
    TwoFields(parse, a, b);
    TwoFields(parse, b, a);
    TakesLimit(parse, NoArguments, limit);
    TakesAfter(parse, NoArguments, cursor);
    TakesLimit(parse, NoArguments.(after := parse(cursor)), limit);
    TakesAfter(parse, NoArguments.(limit := Some(limit)), cursor);
  }

  lemma TwoFields(parse: Parser, a: Bytes, b: Bytes)
    requires AMPERSAND !in a && AMPERSAND !in b
    ensures QueryArguments(parse, a + [AMPERSAND] + b) ==
      var first := Take(parse, NoArguments, a);
      if first.None? then None else Take(parse, first.value, b)
  {
    FieldsOfJoin(a, b);
    FieldsOfOne(b);
    var fields := [a] + [b];
    assert Fields(a + [AMPERSAND] + b) == fields;
    assert fields[..1] == [a] && [a][..0] == [];
    assert TakeAll(parse, [a]) == Take(parse, NoArguments, a);
    assert a + [AMPERSAND] + b != [];
  }

  function Count(o: Arguments): nat {
    (if o.limit.Some? then 1 else 0) + (if o.after.Some? then 1 else 0)
  }

  /** An accepted query holds each of its names once: it has as many fields as arguments. */
  lemma {:induction false} NoDuplicates(parse: Parser, fields: seq<Bytes>)
    requires TakeAll(parse, fields).Some?
    ensures |fields| == Count(TakeAll(parse, fields).value)
  {
    if fields != [] { NoDuplicates(parse, fields[..|fields| - 1]); }
  }

  predicate Bounded(arguments: Arguments) {
    && (arguments.limit.Some? ==> arguments.limit.value > 0)
    && (arguments.after.Some? ==>
          arguments.after.value.Object? && Depth(arguments.after.value) <= MAXIMUM_NESTING)
  }

  lemma TakeIsBounded(parse: Parser, arguments: Arguments, field: Bytes)
    requires Bounded(arguments) && Take(parse, arguments, field).Some?
    ensures Bounded(Take(parse, arguments, field).value)
  {
    var value := Decoded(field[Cut(field) + 1..]).value;
    if IsDecimal(value) { DecimalIsPositive(value); }
    var r := Take(parse, arguments, field).value;
    if r.after != arguments.after {
      assert r.after == parse(value);
      assert Depth(parse(value).value) <= MAXIMUM_NESTING;
    }
  }

  /** An accepted limit is positive, and an accepted cursor is an object that nests at most 64 containers. */
  lemma {:induction false} AcceptedIsBounded(parse: Parser, fields: seq<Bytes>)
    requires TakeAll(parse, fields).Some?
    ensures Bounded(TakeAll(parse, fields).value)
  {
    if fields != [] {
      var before := fields[..|fields| - 1];
      AcceptedIsBounded(parse, before);
      TakeIsBounded(parse, TakeAll(parse, before).value, fields[|fields| - 1]);
    }
  }

  lemma {:induction false} DecimalIsPositive(s: Bytes)
    requires IsDecimal(s)
    ensures ValueOf(s) > 0
  {
    if |s| > 1 { DecimalIsPositive(s[..|s| - 1]); }
  }
}
