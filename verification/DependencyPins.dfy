/** Rewriting the commit in every pinned archive URL of a text. */
module DependencyPins {

  /** The three repositories whose archives are pinned. */
  datatype Repository = Kit | Interpreters | Secrets

  const ROOT := "https://github.com/OpenJ92/control-plane-kit"

  function Branch(r: Repository): string {
    match r
    case Kit => ""
    case Interpreters => "-interpreters"
    case Secrets => "-secrets"
  }

  function Prefix(r: Repository): string { ROOT + Branch(r) + "/archive/" }

  const SUFFIX := ".zip"

  predicate IsHex(c: char) { '0' <= c <= '9' || 'a' <= c <= 'f' }

  predicate IsCommit(s: string) { |s| == 40 && forall i :: 0 <= i < 40 ==> IsHex(s[i]) }

  type Commit = s: string | IsCommit(s) witness seq(40, _ => '0')

  function Span(r: Repository): nat { |Prefix(r)| + 44 }

  function Url(r: Repository, c: Commit): (u: string)
    ensures |u| == Span(r)
  {
    Prefix(r) + c + SUFFIX
  }

  /** What the pattern allows at each of its positions. */
  predicate Fits(r: Repository, k: nat, c: char)
    requires k < Span(r)
  {
    var n := |Prefix(r)|;
    if k < n then c == Prefix(r)[k] else if k < n + 40 then IsHex(c) else c == SUFFIX[k - n - 40]
  }

  predicate FitsAt(s: string, i: int, r: Repository, k: nat) {
    k < Span(r) && 0 <= i + k < |s| && Fits(r, k, s[i + k])
  }

  /** The pattern matches at a position. */
  predicate MatchAt(s: string, i: int, r: Repository) {
    0 <= i && i + Span(r) <= |s| && forall k :: 0 <= k < Span(r) ==> FitsAt(s, i, r, k)
  }

  /** The position is one of the forty digits of the match at `i`. */
  predicate InPin(i: int, r: Repository, x: int) {
    i + |Prefix(r)| <= x < i + |Prefix(r)| + 40
  }

  /** `re.sub`: from the left, going on after each match. */
  function Sub(s: string, r: Repository, c: Commit): string {
    if s == [] then s
    else if MatchAt(s, 0, r) then Url(r, c) + Sub(s[Span(r)..], r, c)
    else [s[0]] + Sub(s[1..], r, c)
  }

  // ----- matches do not overlap -----

  predicate Mark(s: string, k: int) { 0 <= k && k + 1 < |s| && s[k] == 'h' && s[k + 1] == 't' }

  /** "ht" opens a prefix and occurs nowhere else in it, and a prefix ends in a slash. */
  lemma PrefixIsMarked(r: Repository)
    ensures var p := Prefix(r);
      && |p| > 1 && Mark(p, 0) && p[|p| - 1] == '/'
      && forall k :: 0 < k < |p| ==> !Mark(p, k)
  {
    var p := Prefix(r);
    RootIsMarked();
    var tail := Branch(r) + "/archive/";
    assert p == ROOT + tail;
    assert forall k :: 0 <= k < |tail| ==> tail[k] == 'h' ==> k + 1 < |tail| && tail[k + 1] == 'i';
    assert ROOT[|ROOT| - 1] == 't';
    forall k | 0 < k < |p|
      ensures !Mark(p, k)
    {
      if k + 1 < |ROOT| { assert !Mark(ROOT, k); }
      else if k >= |ROOT| { assert p[k] == tail[k - |ROOT|]; }
    }
  }

  lemma RootIsMarked()
    ensures Mark(ROOT, 0) && forall k :: 0 < k < |ROOT| ==> !Mark(ROOT, k)
  {
  }

  lemma PrefixesDiffer(q: Repository, r: Repository, k: nat)
    requires q != r
    ensures k == |ROOT| + 1 ==> k < |Prefix(q)| && k < |Prefix(r)| && Prefix(q)[k] != Prefix(r)[k]
  {
    if k == |ROOT| + 1 {
      assert forall x: Repository :: Prefix(x)[k] == (Branch(x) + "/archive/")[1];
    }
  }

  lemma NoMarkInside(r: Repository, k: nat)
    requires 0 < k < Span(r)
    ensures Fits(r, k, 'h') ==> k + 1 < Span(r) && !Fits(r, k + 1, 't')
  {
    PrefixIsMarked(r);
    assert !Mark(Prefix(r), k);
    if k + 1 == |Prefix(r)| { assert Prefix(r)[k] == '/'; }
  }

  /** Two matches, of whichever patterns, are the same match or have no position in common. */
  lemma NoOverlap(s: string, i: int, q: Repository, j: int, r: Repository)
    requires MatchAt(s, i, q) && MatchAt(s, j, r) && i <= j
    ensures (i == j && q == r) || i + Span(q) <= j
  {
    hide Prefix;
    PrefixIsMarked(r);
    assert FitsAt(s, j, r, 0) && FitsAt(s, j, r, 1);
    if 0 < j - i < Span(q) {
      NotInside(s, i, q, j - i);
    } else if i == j && q != r {
      NotBoth(s, i, q, r);
    }
  }

  lemma NotInside(s: string, i: int, r: Repository, k: nat)
    requires MatchAt(s, i, r) && 0 < k < Span(r)
    ensures s[i + k] == 'h' ==> k + 1 < Span(r) && s[i + k + 1] != 't'
  {
    NoMarkInside(r, k);
    assert FitsAt(s, i, r, k);
    assert k + 1 < Span(r) ==> FitsAt(s, i, r, k + 1);
  }

  lemma NotBoth(s: string, i: int, q: Repository, r: Repository)
    requires MatchAt(s, i, q) && q != r
    ensures !MatchAt(s, i, r)
  {
    var k := |ROOT| + 1;
    PrefixesDiffer(q, r, k);
    assert FitsAt(s, i, q, k);
    assert !FitsAt(s, i, r, k);
  }

  // ----- what a substitution changes -----

  /** Every match has its digits replaced, and nothing else is touched. */
  ghost predicate Rewritten(s: string, t: string, r: Repository, c: Commit) {
    && |t| == |s|
    && (forall i, x :: MatchAt(s, i, r) && InPin(i, r, x) ==> t[x] == c[x - i - |Prefix(r)|])
    && forall x :: 0 <= x < |s| && t[x] != s[x] ==> Pinned(s, r, x)
  }

  ghost predicate Pinned(s: string, r: Repository, x: int) {
    exists i :: MatchAt(s, i, r) && InPin(i, r, x)
  }

  lemma Shifted(s: string, n: nat, i: int, r: Repository)
    requires n <= |s| && 0 <= i
    ensures MatchAt(s[n..], i, r) <==> MatchAt(s, i + n, r)
  {
    var m := i + n;
    if MatchAt(s[n..], i, r) {
      forall k | 0 <= k < Span(r)
        ensures FitsAt(s, m, r, k)
      {
        assert FitsAt(s[n..], i, r, k);
      }
    } else if MatchAt(s, m, r) {
      forall k | 0 <= k < Span(r)
        ensures FitsAt(s[n..], i, r, k)
      {
        assert FitsAt(s, m, r, k);
      }
    }
  }

  lemma UrlFits(s: string, r: Repository, c: Commit, x: nat)
    requires MatchAt(s, 0, r) && x < Span(r)
    ensures if InPin(0, r, x) then Url(r, c)[x] == c[x - |Prefix(r)|] else Url(r, c)[x] == s[x]
  {
    assert FitsAt(s, 0, r, x);
    var n := |Prefix(r)|;
    if x >= n + 40 { assert Url(r, c)[x] == SUFFIX[x - n - 40]; }
    else if x >= n { assert Url(r, c)[x] == c[x - n]; }
    else { assert Url(r, c)[x] == Prefix(r)[x]; }
  }

  /** No match begins at 0 and reaches past `n`, none begins inside. */
  ghost predicate Cut(s: string, n: nat, r: Repository) {
    0 < n <= |s| && forall i :: MatchAt(s, i, r) && i < n ==> i == 0 && n == Span(r)
  }

  lemma CutAfterStep(s: string, r: Repository)
    requires s != []
    ensures Cut(s, if MatchAt(s, 0, r) then Span(r) else 1, r)
  {
    if MatchAt(s, 0, r) {
      forall i | MatchAt(s, i, r) && i < Span(r)
        ensures i == 0
      {
        NoOverlap(s, 0, r, i, r);
      }
    }
  }

  lemma PinnedShift(s: string, n: nat, r: Repository, x: int)
    requires n <= |s| && Pinned(s[n..], r, x)
    ensures Pinned(s, r, x + n)
  {
    var i :| MatchAt(s[n..], i, r) && InPin(i, r, x);
    Shifted(s, n, i, r);
    assert InPin(i + n, r, x + n);
  }

  lemma MatchesAfterCut(s: string, n: nat, t: string, r: Repository, c: Commit, i: int, x: int)
    requires Cut(s, n, r) && Rewritten(s[n..], t, r, c) && MatchAt(s, i, r) && InPin(i, r, x) && i > 0
    ensures t[x - n] == c[x - i - |Prefix(r)|]
  {
    hide Prefix, FitsAt;
    MatchInside(s, i, r);
    Shifted(s, n, i - n, r);
    assert InPin(i - n, r, x - n);
  }

  lemma PinnedAtStart(s: string, r: Repository)
    ensures forall x :: MatchAt(s, 0, r) && InPin(0, r, x) ==> Pinned(s, r, x)
  {
  }

  /** A text rewritten up to a cut, and again from there on. */
  lemma RewrittenJoin(s: string, n: nat, head: string, tail: string, r: Repository, c: Commit)
    requires Cut(s, n, r) && |head| == n && Rewritten(s[n..], tail, r, c)
    requires forall x :: 0 <= x < n && MatchAt(s, 0, r) && InPin(0, r, x) ==> head[x] == c[x - |Prefix(r)|]
    requires forall x :: 0 <= x < n && head[x] != s[x] ==> MatchAt(s, 0, r) && InPin(0, r, x)
    ensures Rewritten(s, head + tail, r, c)
  {
    hide Prefix, MatchAt, Pinned;
    var t := head + tail;
    PinnedAtStart(s, r);
    forall i, x | MatchAt(s, i, r) && InPin(i, r, x)
      ensures 0 <= x < |t| && t[x] == c[x - i - |Prefix(r)|]
    {
      MatchInside(s, i, r);
      if i > 0 { MatchesAfterCut(s, n, tail, r, c, i, x); }
    }
    forall x | 0 <= x < |s| && t[x] != s[x]
      ensures Pinned(s, r, x)
    {
      if x >= n { PinnedShift(s, n, r, x - n); }
    }
  }

  lemma MatchInside(s: string, i: int, r: Repository)
    requires MatchAt(s, i, r)
    ensures 0 <= i && i + Span(r) <= |s|
  {
  }

  lemma EmptyIsRewritten(r: Repository, c: Commit)
    ensures Rewritten("", "", r, c)
  {
  }

  lemma {:induction false} SubRewrites(s: string, r: Repository, c: Commit)
    ensures Rewritten(s, Sub(s, r, c), r, c)
    decreases |s|
  {
    hide Prefix, Url, MatchAt, Cut, Rewritten;
    if s == [] {
      EmptyIsRewritten(r, c);
    } else {
      CutAfterStep(s, r);
      if MatchAt(s, 0, r) {
        forall x | 0 <= x < Span(r)
          ensures if InPin(0, r, x) then Url(r, c)[x] == c[x - |Prefix(r)|] else Url(r, c)[x] == s[x]
        {
          UrlFits(s, r, c, x);
        }
        MatchInside(s, 0, r);
        SubRewrites(s[Span(r)..], r, c);
        RewrittenJoin(s, Span(r), Url(r, c), Sub(s[Span(r)..], r, c), r, c);
      } else {
        SubRewrites(s[1..], r, c);
        RewrittenJoin(s, 1, [s[0]], Sub(s[1..], r, c), r, c);
      }
    }
  }

  lemma RewrittenOnce(s: string, t: string, u: string, r: Repository, c: Commit)
    requires Rewritten(s, t, r, c) && Rewritten(s, u, r, c)
    ensures t == u
  {
    forall x | 0 <= x < |s|
      ensures t[x] == u[x]
    {
      if Pinned(s, r, x) {
        var i :| MatchAt(s, i, r) && InPin(i, r, x);
      }
    }
  }

  /** Where a match of one pattern meets a pin of another, or its own, it is that pin's own match. */
  lemma MatchMeetsPin(s: string, i: int, q: Repository, j: int, r: Repository, k: nat)
    requires MatchAt(s, i, q) && MatchAt(s, j, r) && k < Span(q) && InPin(j, r, i + k)
    ensures i == j && q == r && InPin(i, q, i + k)
  {
    if i <= j { NoOverlap(s, i, q, j, r); } else { NoOverlap(s, j, r, i, q); }
  }

  lemma RewritingKeeps(s: string, t: string, r: Repository, c: Commit, i: int, q: Repository)
    requires Rewritten(s, t, r, c) && MatchAt(s, i, q)
    ensures MatchAt(t, i, q)
  {
    hide Prefix;
    forall k | 0 <= k < Span(q)
      ensures FitsAt(t, i, q, k)
    {
      assert FitsAt(s, i, q, k);
      if t[i + k] != s[i + k] {
        var j :| MatchAt(s, j, r) && InPin(j, r, i + k);
        MatchMeetsPin(s, i, q, j, r, k);
      }
    }
  }

  /** Rewriting creates no match and destroys none, of any of the patterns. */
  lemma SameMatches(s: string, t: string, r: Repository, c: Commit, i: int, q: Repository)
    requires Rewritten(s, t, r, c)
    ensures MatchAt(t, i, q) <==> MatchAt(s, i, q)
  {
    hide Prefix;
    if MatchAt(s, i, q) {
      RewritingKeeps(s, t, r, c, i, q);
    } else if MatchAt(t, i, q) {
      var k :| 0 <= k < Span(q) && !FitsAt(s, i, q, k);
      assert FitsAt(t, i, q, k);
      assert Pinned(s, r, i + k);
      var j :| MatchAt(s, j, r) && InPin(j, r, i + k);
      RewritingKeeps(s, t, r, c, j, r);
      MatchMeetsPin(t, i, q, j, r, k);
      assert false;
    }
  }

  /** Substituting twice is substituting the second commit; in particular it is idempotent. */
  lemma LastWriteWins(s: string, r: Repository, c: Commit, d: Commit)
    ensures Sub(Sub(s, r, c), r, d) == Sub(s, r, d)
  {
    var t, u := Sub(s, r, c), Sub(Sub(s, r, c), r, d);
    SubRewrites(s, r, c);
    SubRewrites(t, r, d);
    SubRewrites(s, r, d);
    RewrittenTwice(s, t, u, r, c, d);
    RewrittenOnce(s, u, Sub(s, r, d), r, d);
  }

  lemma RewrittenTwice(s: string, t: string, u: string, r: Repository, c: Commit, d: Commit)
    requires Rewritten(s, t, r, c) && Rewritten(t, u, r, d)
    ensures Rewritten(s, u, r, d)
  {
    hide Prefix, MatchAt;
    forall i, x | MatchAt(s, i, r) && InPin(i, r, x)
      ensures 0 <= x < |u| && u[x] == d[x - i - |Prefix(r)|]
    {
      MatchInside(s, i, r);
      SameMatches(s, t, r, c, i, r);
    }
    forall x | 0 <= x < |s| && u[x] != s[x]
      ensures Pinned(s, r, x)
    {
      if u[x] != t[x] { SamePins(s, t, r, c, r, x); }
    }
  }

  lemma SamePins(s: string, t: string, r: Repository, c: Commit, q: Repository, x: int)
    requires Rewritten(s, t, r, c)
    ensures Pinned(t, q, x) <==> Pinned(s, q, x)
  {
    forall i
      ensures MatchAt(t, i, q) <==> MatchAt(s, i, q)
    {
      SameMatches(s, t, r, c, i, q);
    }
  }

  /** Substitutions of two patterns commute. */
  lemma SubsCommute(s: string, q: Repository, c: Commit, r: Repository, d: Commit)
    requires q != r
    ensures Sub(Sub(s, q, c), r, d) == Sub(Sub(s, r, d), q, c)
  {
    hide Sub;
    var t, u, v, w := Sub(s, q, c), Sub(s, r, d), Sub(Sub(s, q, c), r, d), Sub(Sub(s, r, d), q, c);
    SubRewrites(s, q, c);
    SubRewrites(s, r, d);
    SubRewrites(t, r, d);
    SubRewrites(u, q, c);
    forall x | 0 <= x < |s|
      ensures v[x] == w[x]
    {
      BothAt(s, t, v, q, c, r, d, x);
      BothAt(s, u, w, r, d, q, c, x);
    }
  }

  /** After two passes each position holds what its own pattern's commit says, if it is pinned. */
  lemma BothAt(s: string, t: string, v: string, q: Repository, c: Commit, r: Repository, d: Commit, x: int)
    requires q != r && Rewritten(s, t, q, c) && Rewritten(t, v, r, d) && 0 <= x < |s|
    ensures forall i :: MatchAt(s, i, q) && InPin(i, q, x) ==> v[x] == c[x - i - |Prefix(q)|]
    ensures forall i :: MatchAt(s, i, r) && InPin(i, r, x) ==> v[x] == d[x - i - |Prefix(r)|]
    ensures !Pinned(s, q, x) && !Pinned(s, r, x) ==> v[x] == s[x]
  {
    SamePins(s, t, q, c, r, x);
    forall i | MatchAt(s, i, q) && InPin(i, q, x)
      ensures v[x] == c[x - i - |Prefix(q)|]
    {
      NotBothPinned(s, i, q, r, x);
    }
    forall i | MatchAt(s, i, r) && InPin(i, r, x)
      ensures v[x] == d[x - i - |Prefix(r)|]
    {
      SameMatches(s, t, q, c, i, r);
    }
  }

  lemma NotBothPinned(s: string, i: int, q: Repository, r: Repository, x: int)
    requires q != r && MatchAt(s, i, q) && InPin(i, q, x)
    ensures !Pinned(s, r, x)
  {
    forall j | MatchAt(s, j, r)
      ensures !InPin(j, r, x)
    {
      if i <= j { NoOverlap(s, i, q, j, r); } else { NoOverlap(s, j, r, i, q); }
    }
  }

  // ----- the three passes -----

  /** The commits of one set of coordinates. */
  datatype Pins = Pins(kit: Commit, interpreters: Commit, secrets: Commit) {
    function Of(r: Repository): Commit {
      match r
      case Kit => kit
      case Interpreters => interpreters
      case Secrets => secrets
    }
  }

  /** `_replace_dependency_pins`. */
  function ReplaceDependencyPins(text: string, pins: Pins): string {
    Sub(Sub(Sub(text, Kit, pins.kit), Interpreters, pins.interpreters), Secrets, pins.secrets)
  }

  /** Rewriting with one set of commits and then another is rewriting with the other alone. */
  lemma LaterPinsWin(text: string, p: Pins, q: Pins)
    ensures ReplaceDependencyPins(ReplaceDependencyPins(text, p), q) == ReplaceDependencyPins(text, q)
  {
    hide Sub;
    var k := Sub(text, Kit, p.kit);
    var i := Sub(k, Interpreters, p.interpreters);
    // the later passes move in past the earlier ones, each to its own
    SubsCommute(i, Secrets, p.secrets, Kit, q.kit);
    SubsCommute(k, Interpreters, p.interpreters, Kit, q.kit);
    LastWriteWins(text, Kit, p.kit, q.kit);
    var k' := Sub(text, Kit, q.kit);
    SubsCommute(Sub(k', Interpreters, p.interpreters), Secrets, p.secrets, Interpreters, q.interpreters);
    LastWriteWins(k', Interpreters, p.interpreters, q.interpreters);
    LastWriteWins(Sub(k', Interpreters, q.interpreters), Secrets, p.secrets, q.secrets);
  }

  /** What the three passes do, position by position: the digits of every pinned URL become the
      commit of its repository, the length and everything else stay. */
  lemma PassesRewriteExactly(text: string, pins: Pins)
    ensures var t := ReplaceDependencyPins(text, pins);
      && |t| == |text|
      && (forall r, i, x :: MatchAt(text, i, r) && InPin(i, r, x) ==> t[x] == pins.Of(r)[x - i - |Prefix(r)|])
      && (forall x :: 0 <= x < |text| && t[x] != text[x] ==> exists r :: Pinned(text, r, x))
      && forall r, i :: MatchAt(t, i, r) <==> MatchAt(text, i, r)
  {
    hide Sub, MatchAt, Prefix;
    var a := Sub(text, Kit, pins.kit);
    var b := Sub(a, Interpreters, pins.interpreters);
    var t := Sub(b, Secrets, pins.secrets);
    SubRewrites(text, Kit, pins.kit);
    SubRewrites(a, Interpreters, pins.interpreters);
    SubRewrites(b, Secrets, pins.secrets);
    forall r, i
      ensures MatchAt(a, i, r) == MatchAt(text, i, r) && MatchAt(b, i, r) == MatchAt(text, i, r)
           && MatchAt(t, i, r) == MatchAt(text, i, r)
    {
      SameMatches(text, a, Kit, pins.kit, i, r);
      SameMatches(a, b, Interpreters, pins.interpreters, i, r);
      SameMatches(b, t, Secrets, pins.secrets, i, r);
    }
    forall r, i, x | MatchAt(text, i, r) && InPin(i, r, x)
      ensures 0 <= x < |t| && t[x] == pins.Of(r)[x - i - |Prefix(r)|]
    {
      MatchInside(text, i, r);
      if r != Interpreters { NotBothPinned(a, i, r, Interpreters, x); }
      if r != Secrets { NotBothPinned(b, i, r, Secrets, x); }
    }
    forall x | 0 <= x < |text| && t[x] != text[x]
      ensures exists r :: Pinned(text, r, x)
    {
      if Pinned(text, Kit, x) || Pinned(text, Interpreters, x) || Pinned(text, Secrets, x) {
      }
    }
  }

  /** A text is left alone exactly when every pin in it is already the right one. */
  lemma UnchangedWhenCurrent(text: string, pins: Pins)
    ensures ReplaceDependencyPins(text, pins) == text <==>
            forall r, i :: MatchAt(text, i, r) ==> text[i + |Prefix(r)|..i + |Prefix(r)| + 40] == pins.Of(r)
  {
    hide ReplaceDependencyPins, Prefix;
    PassesRewriteExactly(text, pins);
    var t := ReplaceDependencyPins(text, pins);
    forall r, i | MatchAt(text, i, r)
      ensures t[i + |Prefix(r)|..i + |Prefix(r)| + 40] == pins.Of(r)
    {
      forall k | 0 <= k < 40
        ensures t[i + |Prefix(r)| + k] == pins.Of(r)[k]
      {
        assert InPin(i, r, i + |Prefix(r)| + k);
      }
    }
    if forall r, i :: MatchAt(text, i, r) ==> text[i + |Prefix(r)|..i + |Prefix(r)| + 40] == pins.Of(r) {
      forall x | 0 <= x < |text|
        ensures t[x] == text[x]
      {
        if r :| Pinned(text, r, x) {
          var i :| MatchAt(text, i, r) && InPin(i, r, x);
          assert text[i + |Prefix(r)|..i + |Prefix(r)| + 40][x - i - |Prefix(r)|] == text[x];
        }
      }
    }
  }
}
