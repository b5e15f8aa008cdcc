/** Route paths: the client fills a template's placeholders one text replacement at a time, the server
    matches the filled path against the same template. */
module PathTemplates {
  import opened Wrappers
  import opened QueryCodec

  const SLASH: Byte := 47
  const OPEN: Byte := 123
  const CLOSE: Byte := 125
  const NEWLINE: Byte := 10

  /** A template is a sequence of whole segments, each literal or one placeholder. */
  datatype Segment = Literal(text: Bytes) | Hole(name: Bytes)

  type Template = seq<Segment>

  predicate Braceless(s: Bytes) { OPEN !in s && CLOSE !in s }

  predicate Solid(s: Segment) { Braceless(if s.Literal? then s.text else s.name) }

  predicate IsLetter(b: Byte) { b == 95 || 65 <= b <= 90 || 97 <= b <= 122 }

  /** What the server takes for the name of a placeholder. */
  predicate IsIdentifier(s: Bytes) {
    s != [] && IsLetter(s[0]) && forall b :: b in s ==> IsLetter(b) || 48 <= b <= 57
  }

  /** A template the server finds the same placeholders in as the client. */
  predicate WellFormed(t: Template) {
    forall i :: 0 <= i < |t| ==> Solid(t[i]) && (t[i].Hole? ==> IsIdentifier(t[i].name))
  }

  predicate HasHole(t: Template, name: Bytes) { exists i :: 0 <= i < |t| && t[i] == Hole(name) }

  function Placeholder(name: Bytes): Bytes { [OPEN] + name + [CLOSE] }

  function Text(s: Segment): Bytes { if s.Literal? then s.text else Placeholder(s.name) }

  function Render(t: Template): Bytes {
    if t == [] then [] else [SLASH] + Text(t[0]) + Render(t[1..])
  }

  // ----- the client -----

  /** `str.replace`: every leftmost occurrence, none overlapping the one before. */
  function Replace(s: Bytes, pattern: Bytes, sub: Bytes): Bytes
    requires pattern != []
  {
    if |s| < |pattern| then s
    else if pattern <= s then sub + Replace(s[|pattern|..], pattern, sub)
    else [s[0]] + Replace(s[1..], pattern, sub)
  }

  type Parameter = (Bytes, Bytes)

  function FillAll(path: Bytes, parameters: seq<Parameter>): Bytes
    decreases |parameters|
  {
    if parameters == [] then path
    else FillAll(Replace(path, Placeholder(parameters[0].0), Quote(parameters[0].1)), parameters[1..])
  }

  /** The path `call` requests, `None` where it raises. */
  function Filled(template: Bytes, parameters: seq<Parameter>): Option<Bytes> {
    var path := FillAll(template, parameters);
    if (exists i :: 0 <= i < |parameters| && parameters[i].1 == []) || !Braceless(path) then None else Some(path)
  }

  method Fill(template: Bytes, parameters: seq<Parameter>) returns (r: Option<Bytes>)
    ensures r == Filled(template, parameters)
  {
    var path := template;
    for i := 0 to |parameters|
      invariant FillAll(path, parameters[i..]) == FillAll(template, parameters)
      invariant forall j :: 0 <= j < i ==> parameters[j].1 != []
    {
      var (name, value) := parameters[i];
      if value == [] { return None; }
      assert parameters[i..][1..] == parameters[i + 1..];
      path := Replace(path, Placeholder(name), Quote(value));
    }
    if OPEN in path || CLOSE in path { return None; }
    return Some(path);
  }

  /** Text without an opening brace is passed over. */
  lemma {:induction false} ReplaceSkips(a: Bytes, b: Bytes, name: Bytes, sub: Bytes)
    requires OPEN !in a
    ensures Replace(a + b, Placeholder(name), sub) == a + Replace(b, Placeholder(name), sub)
  {
    var pattern := Placeholder(name);
    if a == [] {
      assert a + b == b;
    } else {
      assert (a + b)[0] == a[0] && (a + b)[1..] == a[1..] + b;
      ReplaceSkips(a[1..], b, name, sub);
      if |a + b| < |pattern| {
        assert Replace(b, pattern, sub) == b;
      }
      assert pattern[0] == OPEN;
      assert [a[0]] + (a[1..] + Replace(b, pattern, sub)) == a + Replace(b, pattern, sub);
    }
  }

  /** The placeholder of one name is not an occurrence of another's. */
  lemma OtherPlaceholder(name: Bytes, other: Bytes, rest: Bytes)
    requires Braceless(name) && Braceless(other) && name != other
    ensures !(Placeholder(name) <= Placeholder(other) + rest)
  {
    var p, s := Placeholder(name), Placeholder(other) + rest;
    if |name| < |other| {
      assert p[|name| + 1] == CLOSE && s[|name| + 1] == other[|name|];
    } else if |other| < |name| {
      assert p[|other| + 1] == name[|other|] && s[|other| + 1] == CLOSE;
    } else {
      var i :| 0 <= i < |name| && name[i] != other[i];
      assert p[i + 1] == name[i] && s[i + 1] == other[i];
    }
  }

  /** What one parameter makes of a segment. */
  function Assign(s: Segment, p: Parameter): Segment {
    if s == Hole(p.0) then Literal(Quote(p.1)) else s
  }

  function AssignAll(t: Template, p: Parameter): (r: Template)
    ensures |r| == |t| && forall i :: 0 <= i < |t| ==> r[i] == Assign(t[i], p)
  {
    if t == [] then [] else [Assign(t[0], p)] + AssignAll(t[1..], p)
  }

  lemma ReplaceInSegment(s: Segment, rest: Bytes, p: Parameter)
    requires Braceless(p.0) && Solid(s)
    ensures Replace([SLASH] + Text(s) + rest, Placeholder(p.0), Quote(p.1))
         == [SLASH] + Text(Assign(s, p)) + Replace(rest, Placeholder(p.0), Quote(p.1))
  {
    hide Replace, Quote;
    var pattern, sub := Placeholder(p.0), Quote(p.1);
    var after := Replace(rest, pattern, sub);
    if s.Literal? {
      ReplaceSkips([SLASH] + s.text, rest, p.0, sub);
    } else {
      var hole := Placeholder(s.name) + rest;
      assert [SLASH] + Text(s) + rest == [SLASH] + hole;
      ReplaceSkips([SLASH], hole, p.0, sub);
      if s.name == p.0 {
        ReplaceHead(rest, pattern, sub);
        assert [SLASH] + (sub + after) == [SLASH] + sub + after;
      } else {
        ReplacePastPlaceholder(s.name, rest, p.0, sub);
        assert [SLASH] + (Placeholder(s.name) + after) == [SLASH] + Placeholder(s.name) + after;
      }
    }
  }

  lemma ReplaceHead(rest: Bytes, pattern: Bytes, sub: Bytes)
    requires pattern != []
    ensures Replace(pattern + rest, pattern, sub) == sub + Replace(rest, pattern, sub)
  {
    assert (pattern + rest)[|pattern|..] == rest;
  }

  lemma ReplacePastPlaceholder(other: Bytes, rest: Bytes, name: Bytes, sub: Bytes)
    requires Braceless(name) && Braceless(other) && name != other
    ensures Replace(Placeholder(other) + rest, Placeholder(name), sub)
         == Placeholder(other) + Replace(rest, Placeholder(name), sub)
  {
    hide Replace;
    var pattern, hole, tail := Placeholder(name), Placeholder(other) + rest, other + [CLOSE];
    OtherPlaceholder(name, other, rest);
    ReplaceStepsOn(hole, pattern, sub);
    assert hole[0] == OPEN && hole[1..] == tail + rest;
    ReplaceSkips(tail, rest, name, sub);
    var after := Replace(rest, pattern, sub);
    assert Placeholder(other) + after == [OPEN] + (tail + after);
  }

  lemma ReplaceStepsOn(s: Bytes, pattern: Bytes, sub: Bytes)
    requires pattern != [] && s != [] && !(pattern <= s)
    ensures Replace(s, pattern, sub) == [s[0]] + Replace(s[1..], pattern, sub)
  {
    if |s| < |pattern| { assert s == [s[0]] + s[1..]; }
  }

  /** One round of text replacement on a rendered template is one round of substitution in it. */
  lemma {:induction false} ReplaceFills(t: Template, p: Parameter)
    requires Braceless(p.0) && forall i :: 0 <= i < |t| ==> Solid(t[i])
    ensures Replace(Render(t), Placeholder(p.0), Quote(p.1)) == Render(AssignAll(t, p))
  {
    if t != [] {
      ReplaceFills(t[1..], p);
      ReplaceInSegment(t[0], Render(t[1..]), p);
      assert AssignAll(t, p)[1..] == AssignAll(t[1..], p);
    }
  }

  // ----- filling by name -----

  type Values = map<Bytes, Bytes>

  /** The parameters are the entries of the mapping, in some order. */
  predicate Enumerates(parameters: seq<Parameter>, values: Values) {
    && (forall i :: 0 <= i < |parameters| ==> parameters[i].0 in values && values[parameters[i].0] == parameters[i].1)
    && (forall k | k in values :: exists i :: 0 <= i < |parameters| && parameters[i].0 == k)
  }

  function ByName(s: Segment, values: Values): Segment {
    if s.Hole? && s.name in values then Literal(Quote(values[s.name])) else s
  }

  function FilledIn(t: Template, values: Values): (r: Template)
    ensures |r| == |t| && forall i :: 0 <= i < |t| ==> r[i] == ByName(t[i], values)
  {
    if t == [] then [] else [ByName(t[0], values)] + FilledIn(t[1..], values)
  }

  function Named(parameters: seq<Parameter>): Values {
    if parameters == [] then map[] else Named(parameters[1..])[parameters[0].0 := parameters[0].1]
  }

  lemma {:induction false} NamedIsEnumerated(parameters: seq<Parameter>, values: Values)
    requires forall i :: 0 <= i < |parameters| ==>
               parameters[i].0 in values && values[parameters[i].0] == parameters[i].1
    ensures forall k :: k in Named(parameters) <==> exists i :: 0 <= i < |parameters| && parameters[i].0 == k
    ensures forall k :: k in Named(parameters) ==> k in values && Named(parameters)[k] == values[k]
  {
    if parameters != [] {
      var rest := parameters[1..];
      NamedIsEnumerated(rest, values);
      forall k | k in Named(parameters)
        ensures exists i :: 0 <= i < |parameters| && parameters[i].0 == k
      {
        if k == parameters[0].0 {
        } else {
          var i :| 0 <= i < |rest| && rest[i].0 == k;
          assert parameters[i + 1].0 == k;
        }
      }
      forall i | 0 <= i < |parameters|
        ensures parameters[i].0 in Named(parameters)
      {
        if i > 0 { assert rest[i - 1].0 == parameters[i].0; }
      }
    }
  }

  lemma QuotedIsBraceless(s: Bytes)
    ensures Braceless(Quote(s)) && SLASH !in Quote(s) && (s != [] ==> Quote(s) != [])
  {
    QuotedIsPlain(s);
  }

  /** Rounds of replacement, each over the whole text left by the one before, fill by name. */
  lemma {:induction false} FillAllFills(t: Template, parameters: seq<Parameter>)
    requires forall i :: 0 <= i < |t| ==> Solid(t[i])
    requires forall i :: 0 <= i < |parameters| ==> Braceless(parameters[i].0)
    requires forall i, j :: 0 <= i < j < |parameters| && parameters[i].0 == parameters[j].0 ==>
               parameters[i] == parameters[j]
    ensures FillAll(Render(t), parameters) == Render(FilledIn(t, Named(parameters)))
    decreases |parameters|
  {
    if parameters == [] {
      assert FilledIn(t, map[]) == t;
    } else {
      var p, rest := parameters[0], parameters[1..];
      QuotedIsBraceless(p.1);
      ReplaceFills(t, p);
      FillAllFills(AssignAll(t, p), rest);
      assert FilledIn(AssignAll(t, p), Named(rest)) == FilledIn(t, Named(parameters));
    }
  }

  lemma {:induction false} RenderedBraces(t: Template)
    requires forall i :: 0 <= i < |t| && t[i].Literal? ==> Braceless(t[i].text)
    ensures Braceless(Render(t)) <==> forall i :: 0 <= i < |t| ==> t[i].Literal?
  {
    if t != [] {
      RenderedBraces(t[1..]);
      assert forall i :: 1 <= i < |t| ==> t[i] == t[1..][i - 1];
      if t[0].Hole? { assert Render(t)[1] == OPEN; }
    }
  }

  /** Filling does not depend on the order of the parameters, and it fails exactly when a value is
      empty or a placeholder is left without one. */
  lemma FillIsByName(t: Template, parameters: seq<Parameter>, values: Values)
    requires forall i :: 0 <= i < |t| ==> Solid(t[i])
    requires Enumerates(parameters, values) && forall k :: k in values ==> Braceless(k)
    ensures Filled(Render(t), parameters) ==
            if (forall k :: k in values ==> values[k] != [])
               && (forall i :: 0 <= i < |t| && t[i].Hole? ==> t[i].name in values)
            then Some(Render(FilledIn(t, values))) else None
  {
    hide FillAll, Render, Quote;
    NamedIsEnumerated(parameters, values);
    assert Named(parameters) == values;
    FillAllFills(t, parameters);
    FilledBraces(t, values);
    if i :| 0 <= i < |parameters| && parameters[i].1 == [] {
      assert values[parameters[i].0] == [];
    }
  }

  lemma FilledBraces(t: Template, values: Values)
    requires forall i :: 0 <= i < |t| ==> Solid(t[i])
    ensures Braceless(Render(FilledIn(t, values))) <==> forall i :: 0 <= i < |t| && t[i].Hole? ==> t[i].name in values
  {
    var filled := FilledIn(t, values);
    forall i | 0 <= i < |t| && filled[i].Literal?
      ensures Braceless(filled[i].text)
    {
      if t[i].Hole? { QuotedIsBraceless(values[t[i].name]); }
    }
    RenderedBraces(filled);
    assert forall i :: 0 <= i < |t| ==> (filled[i].Literal? <==> t[i].Literal? || t[i].name in values);
  }

  // ----- the server -----

  /** How many bytes from the start are not a slash. */
  function Reach(s: Bytes): (n: nat)
    ensures n <= |s| && SLASH !in s[..n] && (n < |s| ==> s[n] == SLASH)
  {
    if s == [] || s[0] == SLASH then 0
    else
      var n := Reach(s[1..]);
      assert s[..n + 1] == [s[0]] + s[1..][..n];
      n + 1
  }

  /** The captures of `^...$` with each placeholder replaced by `([^/]+)`, every group taking all it
      can; `$` also matches before a final newline. */
  function Match(t: Template, path: Bytes): Option<seq<Bytes>> {
    if t == [] then if path == [] || path == [NEWLINE] then Some([]) else None
    else if path == [] || path[0] != SLASH then None
    else if t[0].Literal? then
      if t[0].text <= path[1..] then Match(t[1..], path[1 + |t[0].text|..]) else None
    else
      var n := Reach(path[1..]);
      if n == 0 then None
      else
        var rest := Match(t[1..], path[1 + n..]);
        if rest.Some? then Some([path[1..1 + n]] + rest.value) else None
  }

  /** The same expression as a relation: these captures are one way to read the path. */
  predicate Reads(t: Template, path: Bytes, captures: seq<Bytes>) {
    if t == [] then captures == [] && (path == [] || path == [NEWLINE])
    else if t[0].Literal? then
      [SLASH] + t[0].text <= path && Reads(t[1..], path[1 + |t[0].text|..], captures)
    else
      && captures != [] && captures[0] != [] && SLASH !in captures[0] && [SLASH] + captures[0] <= path
      && Reads(t[1..], path[1 + |captures[0]|..], captures[1..])
  }

  lemma ReadsAfterSlash(t: Template, path: Bytes, captures: seq<Bytes>)
    requires t != [] && Reads(t, path, captures)
    ensures path != [] && path[0] == SLASH
  {
    if t[0].Literal? { assert path[0] == ([SLASH] + t[0].text)[0]; }
    else { assert path[0] == ([SLASH] + captures[0])[0]; }
  }

  lemma FirstCapture(path: Bytes, c: Bytes)
    requires [SLASH] + c <= path && SLASH !in c
    ensures |c| <= Reach(path[1..]) && c == path[1..1 + |c|]
  {
    assert c == ([SLASH] + c)[1..];
    assert path[1..][..|c|] == c;
    ReachAtLeast(path[1..], |c|);
  }

  lemma {:induction false} ReachAtLeast(s: Bytes, n: nat)
    requires n <= |s| && SLASH !in s[..n]
    ensures n <= Reach(s)
  {
    if n > 0 {
      assert s[..n][0] == s[0] && s[1..][..n - 1] == s[..n][1..];
      ReachAtLeast(s[1..], n - 1);
    }
  }

  /** What greedy matching finds is a reading. */
  lemma {:induction false} MatchReads(t: Template, path: Bytes)
    requires Match(t, path).Some?
    ensures Reads(t, path, Match(t, path).value)
  {
    if t != [] {
      if t[0].Literal? {
        assert [SLASH] + t[0].text <= path;
        MatchReads(t[1..], path[1 + |t[0].text|..]);
      } else {
        var n := Reach(path[1..]);
        assert path[1..1 + n] == path[1..][..n] && [SLASH] + path[1..1 + n] <= path;
        MatchReads(t[1..], path[1 + n..]);
        assert Match(t, path).value[1..] == Match(t[1..], path[1 + n..]).value;
      }
    }
  }

  /** Greedy matching without backtracking loses nothing: it succeeds when there is a reading at all,
      and every capture it finds is the longest of any reading. */
  lemma {:induction false} MatchIsLongest(t: Template, path: Bytes, captures: seq<Bytes>)
    requires Reads(t, path, captures)
    ensures Match(t, path).Some? && |captures| == |Match(t, path).value|
    ensures forall i :: 0 <= i < |captures| ==> captures[i] <= Match(t, path).value[i]
  {
    if t != [] {
      ReadsAfterSlash(t, path, captures);
      if t[0].Literal? {
        assert ([SLASH] + t[0].text)[1..] == t[0].text;
        MatchIsLongest(t[1..], path[1 + |t[0].text|..], captures);
      } else {
        FirstCapture(path, captures[0]);
        var k, n := |captures[0]|, Reach(path[1..]);
        if k < n {
          CaptureStopsShort(t[1..], path[1 + k..], captures[1..]);
          assert path[1 + k..][0] == path[1..][..n][k];
          assert path[1 + n..] == [] && captures[1..] == [];
        } else {
          MatchIsLongest(t[1..], path[1 + n..], captures[1..]);
          assert Match(t, path).value[1..] == Match(t[1..], path[1 + n..]).value;
        }
      }
    }
  }

  lemma CaptureStopsShort(t: Template, rest: Bytes, captures: seq<Bytes>)
    requires Reads(t, rest, captures)
    ensures rest != [] && rest[0] != SLASH ==> t == [] && rest == [NEWLINE] && captures == []
  {
    if t != [] { ReadsAfterSlash(t, rest, captures); }
  }

  function Names(t: Template): seq<Bytes> {
    if t == [] then [] else (if t[0].Hole? then [t[0].name] else []) + Names(t[1..])
  }

  function Zip(names: seq<Bytes>, captures: seq<Bytes>): Values {
    if names == [] || captures == [] then map[] else
      var rest := Zip(names[1..], captures[1..]);
      if names[0] in rest then rest else rest[names[0] := captures[0]]
  }

  /** `_match_path_template`. */
  function MatchPathTemplate(t: Template, path: Bytes): Option<Values> {
    var captures := Match(t, path);
    if captures.Some? then Some(Zip(Names(t), captures.value)) else None
  }

  // ----- round trip -----

  /** Every placeholder has a value. */
  predicate Covers(values: Values, t: Template) {
    forall i :: 0 <= i < |t| && t[i].Hole? ==> t[i].name in values
  }

  /** The template with the values written in as they are. */
  function Written(t: Template, values: Values): (r: Template)
    requires Covers(values, t)
    ensures |r| == |t|
  {
    if t == [] then []
    else [if t[0].Hole? then Literal(values[t[0].name]) else t[0]] + Written(t[1..], values)
  }

  function HeldValues(t: Template, values: Values): seq<Bytes>
    requires Covers(values, t)
  {
    if t == [] then [] else (if t[0].Hole? then [values[t[0].name]] else []) + HeldValues(t[1..], values)
  }

  function Quotes(values: Values): Values { map k | k in values :: Quote(values[k]) }

  lemma {:induction false} FilledIsWritten(t: Template, values: Values)
    requires Covers(values, t)
    ensures FilledIn(t, values) == Written(t, Quotes(values))
  {
    hide Quote;
    if t != [] { FilledIsWritten(t[1..], values); }
  }

  lemma {:induction false} ReachOver(a: Bytes, b: Bytes)
    requires SLASH !in a && (b != [] ==> b[0] == SLASH)
    ensures Reach(a + b) == |a|
  {
    if a == [] {
      assert a + b == b;
    } else {
      assert (a + b)[1..] == a[1..] + b;
      ReachOver(a[1..], b);
    }
  }

  /** Values that a placeholder can match. */
  predicate Readable(t: Template, values: Values) {
    Covers(values, t)
    && forall i :: 0 <= i < |t| && t[i].Hole? ==> values[t[i].name] != [] && SLASH !in values[t[i].name]
  }

  lemma {:induction false} MatchWritten(t: Template, values: Values)
    requires Readable(t, values)
    ensures Match(t, Render(Written(t, values))) == Some(HeldValues(t, values))
  {
    if t != [] {
      var written := Written(t, values);
      assert written[1..] == Written(t[1..], values);
      MatchWritten(t[1..], values);
      MatchSegment(t, Text(written[0]), Render(written[1..]));
      if t[0].Literal? { assert HeldValues(t, values) == HeldValues(t[1..], values); }
    }
  }

  lemma MatchSegment(t: Template, text: Bytes, rest: Bytes)
    requires t != [] && (rest != [] ==> rest[0] == SLASH)
    ensures t[0].Literal? && text == t[0].text ==> Match(t, [SLASH] + text + rest) == Match(t[1..], rest)
    ensures t[0].Hole? && text != [] && SLASH !in text && Match(t[1..], rest).Some? ==>
              Match(t, [SLASH] + text + rest) == Some([text] + Match(t[1..], rest).value)
  {
    Slashed(text, rest);
    if t[0].Literal? {
      hide Reach;
    } else if SLASH !in text {
      ReachOver(text, rest);
      hide Reach;
    }
  }

  lemma Slashed(text: Bytes, rest: Bytes)
    ensures var path := [SLASH] + text + rest;
      && path[1..] == text + rest && text <= path[1..]
      && path[1 + |text|..] == rest && path[1..1 + |text|] == text
  {
  }

  lemma HolesOf(t: Template, k: Bytes)
    requires t != []
    ensures HasHole(t, k) <==> t[0] == Hole(k) || HasHole(t[1..], k)
  {
    if HasHole(t[1..], k) {
      var i :| 0 <= i < |t| - 1 && t[1..][i] == Hole(k);
      assert t[i + 1] == Hole(k);
    }
    if HasHole(t, k) && t[0] != Hole(k) {
      var i :| 0 <= i < |t| && t[i] == Hole(k);
      assert t[1..][i - 1] == Hole(k);
    }
  }

  lemma {:induction false} ZipsHeld(t: Template, values: Values)
    requires Covers(values, t)
    ensures var z := Zip(Names(t), HeldValues(t, values));
      && (forall k :: k in z <==> HasHole(t, k))
      && (forall k :: k in z ==> k in values && z[k] == values[k])
  {
    hide Zip, Names, HeldValues, HasHole;
    if t == [] {
      ZipsNothing(values);
    } else {
      ZipsHeld(t[1..], values);
      forall k
        ensures HasHole(t, k) <==> t[0] == Hole(k) || HasHole(t[1..], k)
      {
        HolesOf(t, k);
      }
      ZipsOnward(t, values);
    }
  }

  lemma ZipsNothing(values: Values)
    ensures Zip(Names([]), HeldValues([], values)) == map[] && forall k :: !HasHole([], k)
  {
  }

  lemma ZipsOnward(t: Template, values: Values)
    requires t != [] && Covers(values, t)
    ensures var rest := Zip(Names(t[1..]), HeldValues(t[1..], values));
      Zip(Names(t), HeldValues(t, values)) ==
        if t[0].Literal? || t[0].name in rest then rest else rest[t[0].name := values[t[0].name]]
  {
    var names, held := Names(t[1..]), HeldValues(t[1..], values);
    if t[0].Hole? {
      ZipsOne(t[0].name, names, values[t[0].name], held);
    } else {
      assert Names(t) == names && HeldValues(t, values) == held;
    }
  }

  lemma ZipsOne(name: Bytes, names: seq<Bytes>, value: Bytes, values: seq<Bytes>)
    ensures var rest := Zip(names, values);
      Zip([name] + names, [value] + values) == if name in rest then rest else rest[name := value]
  {
    assert ([name] + names)[1..] == names && ([value] + values)[1..] == values;
  }

  /** The path spells exactly these values. */
  ghost predicate ReadAs(t: Template, path: Bytes, values: Values) {
    var read := MatchPathTemplate(t, path);
    && read.Some?
    && (forall k :: k in read.value <==> HasHole(t, k))
    && (forall k :: k in read.value ==> k in values && read.value[k] == values[k])
  }

  lemma WrittenIsRead(t: Template, values: Values)
    requires Readable(t, values)
    ensures ReadAs(t, Render(Written(t, values)), values)
  {
    MatchWritten(t, values);
    ZipsHeld(t, values);
  }

  /** Whatever path the client requests, as it is sent, the server's matching reads back exactly the quoted
      value of every placeholder, and each of them decodes to the value the client was given. */
  lemma PathRoundTrip(t: Template, parameters: seq<Parameter>, values: Values)
    requires WellFormed(t) && Enumerates(parameters, values) && forall k :: k in values ==> Braceless(k)
    requires Filled(Render(t), parameters).Some?
    ensures ReadAs(t, Filled(Render(t), parameters).value, Quotes(values))
    ensures forall k :: k in values ==> Decoded(Quotes(values)[k]) == Some(values[k])
  {
    hide ReadAs, Quote;
    FillIsByName(t, parameters, values);
    FilledIsWritten(t, values);
    QuotesAreReadable(t, values);
    WrittenIsRead(t, Quotes(values));
    forall k | k in values
      ensures Decoded(Quote(values[k])) == Some(values[k])
    {
      DecodeQuoted(values[k]);
    }
  }

  lemma QuotesAreReadable(t: Template, values: Values)
    requires Covers(values, t) && forall k :: k in values ==> values[k] != []
    ensures Readable(t, Quotes(values))
  {
    forall k | k in values
      ensures Quote(values[k]) != [] && SLASH !in Quote(values[k])
    {
      QuotedIsBraceless(values[k]);
    }
  }

  // ----- a path that was decoded before it is matched -----

  predicate Percentless(t: Template) { forall i :: 0 <= i < |t| && t[i].Literal? ==> PERCENT !in t[i].text }

  lemma {:induction false} DecodedIsWritten(t: Template, values: Values)
    requires Covers(values, t) && Percentless(t)
    ensures Decoded(Render(Written(t, Quotes(values)))) == Some(Render(Written(t, values)))
  {
    hide Quote, Decoded;
    if t == [] {
      PlainDecodes([]);
    } else {
      var quoted, rest := Text(Written(t, Quotes(values))[0]), Render(Written(t[1..], Quotes(values)));
      if t[0].Hole? { DecodeQuoted(values[t[0].name]); } else { PlainDecodes(quoted); }
      PlainDecodes([SLASH]);
      DecodedFrom([SLASH], quoted);
      DecodedFrom([SLASH] + quoted, rest);
      DecodedIsWritten(t[1..], values);
    }
  }

  /** No capture holds a slash. */
  lemma {:induction false} CapturesAreSlashless(t: Template, path: Bytes)
    requires Match(t, path).Some?
    ensures forall c :: c in Match(t, path).value ==> SLASH !in c
  {
    if t != [] {
      if t[0].Literal? {
        CapturesAreSlashless(t[1..], path[1 + |t[0].text|..]);
      } else {
        var n := Reach(path[1..]);
        CapturesAreSlashless(t[1..], path[1 + n..]);
        assert path[1..1 + n] == path[1..][..n];
      }
    }
  }

  lemma {:induction false} ZipHolds(names: seq<Bytes>, captures: seq<Bytes>)
    ensures forall k :: k in Zip(names, captures) ==> Zip(names, captures)[k] in captures
  {
    if names != [] && captures != [] { ZipHolds(names[1..], captures[1..]); }
  }

  lemma ReadIsSlashless(t: Template, path: Bytes, values: Values, k: Bytes)
    requires ReadAs(t, path, values) && HasHole(t, k)
    ensures k in values && SLASH !in values[k]
  {
    var captures := Match(t, path).value;
    CapturesAreSlashless(t, path);
    ZipHolds(Names(t), captures);
    assert k in Zip(Names(t), captures);
  }

  /** A server that is handed the path percent-decoded reads back exactly the values the client was given if
      and only if none of them holds a slash. */
  lemma DecodedRoundTripExactly(t: Template, parameters: seq<Parameter>, values: Values)
    requires WellFormed(t) && Percentless(t)
    requires Enumerates(parameters, values) && forall k :: k in values ==> Braceless(k)
    requires Filled(Render(t), parameters).Some?
    ensures var decoded := Decoded(Filled(Render(t), parameters).value);
      && decoded.Some?
      && (ReadAs(t, decoded.value, values)
          <==> forall k :: HasHole(t, k) && k in values ==> SLASH !in values[k])
  {
    hide ReadAs, Quote, Decoded;
    FillIsByName(t, parameters, values);
    FilledIsWritten(t, values);
    DecodedIsWritten(t, values);
    var path := Render(Written(t, values));
    if ReadAs(t, path, values) {
      forall k | HasHole(t, k)
        ensures SLASH !in values[k]
      {
        ReadIsSlashless(t, path, values, k);
      }
    }
    if forall k :: HasHole(t, k) && k in values ==> SLASH !in values[k] {
      forall i | 0 <= i < |t| && t[i].Hole?
        ensures SLASH !in values[t[i].name]
      {
        assert t[i] == Hole(t[i].name);
      }
      WrittenIsRead(t, values);
    }
  }

  /** Two sets of parameters that lead to one path agree on every placeholder. */
  lemma FillIsInjective(t: Template, p: seq<Parameter>, v: Values, q: seq<Parameter>, w: Values, name: Bytes)
    requires WellFormed(t) && Enumerates(p, v) && Enumerates(q, w)
    requires (forall k :: k in v ==> Braceless(k)) && forall k :: k in w ==> Braceless(k)
    requires Filled(Render(t), p).Some? && Filled(Render(t), p) == Filled(Render(t), q) && HasHole(t, name)
    ensures name in v && name in w && v[name] == w[name]
  {
    PathRoundTrip(t, p, v);
    PathRoundTrip(t, q, w);
  }
}
