/** Reading a public history page by page, against a server that may answer anything. */
module Pager {
  import opened Wrappers
  import opened PublicValues

  const MAXIMUM_PUBLIC_PAGES := 16
  const MAXIMUM_PAGE_ITEMS := 100
  const MAXIMUM_CURSOR_BYTES := 16384

  type Key = seq<nat>

  /** `next_cursor`: absent, an object with its canonical text, or anything that is not an object or
      has no canonical text. */
  datatype Cursor = Absent | Next(key: Key) | Malformed

  /** An answer: none at all, or a page whose `items` may not be a list. */
  datatype Reply = NoAnswer | Page(items: Option<seq<Json>>, next: Cursor)

  type Request = Option<Key>

  /** A server may answer each request in the light of all the requests before it. */
  type Server = seq<Request> -> Reply

  predicate Good(r: Reply) {
    r.Page? && r.items.Some? && |r.items.value| <= MAXIMUM_PAGE_ITEMS
  }

  predicate Ends(r: Reply) { r.Page? && r.next.Absent? }

  predicate Continues(r: Reply) { r.Page? && r.next.Next? }

  /** Each request carries the cursor the answer before it handed out. */
  predicate Chain(server: Server, asked: seq<Request>) {
    && asked != [] && asked[0] == None
    && forall i :: 1 <= i < |asked| ==>
         Continues(server(asked[..i])) && asked[i] == Some(server(asked[..i]).next.key)
  }

  predicate Distinct(asked: seq<Request>) {
    forall i, j :: 0 <= i < j < |asked| ==> asked[i] != asked[j]
  }

  predicate AllGood(server: Server, asked: seq<Request>) {
    forall i :: 1 <= i <= |asked| ==> Good(server(asked[..i]))
  }

  predicate OnTrack(server: Server, asked: seq<Request>) {
    && Chain(server, asked) && Distinct(asked)
    && forall i :: 1 <= i < |asked| ==> |asked[i].value| <= MAXIMUM_CURSOR_BYTES
  }

  /** The requests that read a whole history: every page is good and the last one ends it. */
  predicate Complete(server: Server, asked: seq<Request>) {
    && OnTrack(server, asked) && |asked| <= MAXIMUM_PUBLIC_PAGES && AllGood(server, asked) && Ends(server(asked))
  }

  function Items(server: Server, asked: seq<Request>): seq<Json>
    requires AllGood(server, asked)
  {
    if asked == [] then []
    else
      assert asked[..|asked|] == asked;
      Items(server, Before(asked)) + server(asked).items.value
  }

  function Before(asked: seq<Request>): (r: seq<Request>)
    requires asked != []
    ensures |r| == |asked| - 1 && forall i :: 0 <= i <= |r| ==> r[..i] == asked[..i]
  {
    asked[..|asked| - 1]
  }

  /** What was asked can never be part of reading a whole history. */
  predicate Broken(server: Server, asked: seq<Request>) {
    var r := server(asked);
    || !Good(r) || r.next.Malformed? || |asked| > MAXIMUM_PUBLIC_PAGES
    || (r.next.Next? && (|r.next.key| > MAXIMUM_CURSOR_BYTES || Some(r.next.key) in asked))
  }

  lemma {:induction false} ChainsAgree(server: Server, a: seq<Request>, b: seq<Request>, n: nat)
    requires Chain(server, a) && Chain(server, b) && n <= |a| && n <= |b|
    ensures a[..n] == b[..n]
  {
    if n > 0 {
      ChainsAgree(server, a, b, n - 1);
      assert a[n - 1] == b[n - 1];
    }
  }

  lemma BrokenNeverCompletes(server: Server, asked: seq<Request>, a: seq<Request>)
    requires Broken(server, asked) && Chain(server, asked) && Chain(server, a)
    ensures !Complete(server, a)
  {
    var n := if |a| < |asked| then |a| else |asked|;
    ChainsAgree(server, a, asked, n);
    assert a[..|a|] == a && asked[..|asked|] == asked;
    if |a| < |asked| {
      assert Continues(server(asked[..|a|]));
    } else if |a| > |asked| {
      assert Continues(server(a[..n])) && a[n] == Some(server(asked).next.key);
      assert forall i :: 0 <= i < n ==> asked[i] == a[i];
    }
  }

  lemma ChainGrows(server: Server, asked: seq<Request>)
    requires Chain(server, asked) && Continues(server(asked))
    ensures Chain(server, asked + [Some(server(asked).next.key)])
  {
    var more := asked + [Some(server(asked).next.key)];
    assert forall i :: 0 <= i <= |asked| ==> more[..i] == asked[..i];
    assert asked[..|asked|] == asked;
  }

  lemma ChainShrinks(server: Server, asked: seq<Request>, cursor: Request)
    requires asked != [] && Chain(server, asked + [cursor])
    ensures Chain(server, asked)
  {
    assert forall i :: 0 <= i <= |asked| ==> (asked + [cursor])[..i] == asked[..i];
  }

  lemma EndsComplete(server: Server, asked: seq<Request>)
    requires OnTrack(server, asked) && |asked| <= MAXIMUM_PUBLIC_PAGES && AllGood(server, asked) && Ends(server(asked))
    ensures Complete(server, asked)
  {
  }

  lemma Starts(server: Server)
    ensures OnTrack(server, [] + [None]) && AllGood(server, []) && Items(server, []) == []
  {
  }

  lemma TrackGrows(server: Server, asked: seq<Request>)
    requires OnTrack(server, asked) && Continues(server(asked))
    requires |server(asked).next.key| <= MAXIMUM_CURSOR_BYTES && Some(server(asked).next.key) !in asked
    ensures OnTrack(server, asked + [Some(server(asked).next.key)])
  {
    ChainGrows(server, asked);
  }

  lemma TrackShrinks(server: Server, asked: seq<Request>, cursor: Request)
    requires asked != [] && OnTrack(server, asked + [cursor])
    ensures OnTrack(server, asked)
  {
    ChainShrinks(server, asked, cursor);
    var more := asked + [cursor];
    assert forall i :: 0 <= i < |asked| ==> asked[i] == more[i];
  }

  lemma GoodGrows(server: Server, prior: seq<Request>, cursor: Request)
    requires AllGood(server, prior) && Good(server(prior + [cursor]))
    ensures var asked := prior + [cursor];
      AllGood(server, asked) && Items(server, asked) == Items(server, prior) + server(asked).items.value
  {
    var asked := prior + [cursor];
    assert Before(asked) == prior;
    forall i | 1 <= i <= |asked|
      ensures Good(server(asked[..i]))
    {
      if i == |asked| { assert asked[..i] == asked; }
      else { assert asked[..i] == prior[..i]; }
    }
  }

  lemma BrokenOff(server: Server, asked: seq<Request>)
    requires OnTrack(server, asked) && Broken(server, asked)
    ensures forall a :: !Complete(server, a)
  {
    forall a | Chain(server, a)
      ensures !Complete(server, a)
    {
      BrokenNeverCompletes(server, asked, a);
    }
  }

  /** `_page`: all of the history or an error, never a part of it. */
  method ReadAll(server: Server) returns (r: Option<seq<Json>>, asked: seq<Request>)
    ensures OnTrack(server, asked) && |asked| <= MAXIMUM_PUBLIC_PAGES
    ensures r.Some? ==> Complete(server, asked) && r.value == Items(server, asked)
    ensures r.None? ==> forall a :: !Complete(server, a)
  {
    hide OnTrack, AllGood, Complete, Items;
    var items: seq<Json>, cursor: Request, seen: set<Key> := [], None, {};
    asked := [];
    Starts(server);
    for page := 0 to MAXIMUM_PUBLIC_PAGES
      invariant |asked| == page && OnTrack(server, asked + [cursor])
      invariant forall k :: k in seen <==> Some(k) in asked + [cursor]
      invariant AllGood(server, asked) && items == Items(server, asked)
    {
      ghost var prior := asked;
      asked := asked + [cursor];
      var reply := server(asked);
      if reply.NoAnswer? || reply.items.None? || |reply.items.value| > MAXIMUM_PAGE_ITEMS {
        BrokenOff(server, asked);
        return None, asked;
      }
      GoodGrows(server, prior, cursor);
      items := items + reply.items.value;
      if reply.next.Absent? {
        EndsComplete(server, asked);
        return Some(items), asked;
      }
      if reply.next.Malformed? || |reply.next.key| > MAXIMUM_CURSOR_BYTES || reply.next.key in seen {
        BrokenOff(server, asked);
        return None, asked;
      }
      seen := seen + {reply.next.key};
      cursor := Some(reply.next.key);
      TrackGrows(server, asked);
    }
    BrokenOff(server, asked + [cursor]);
    TrackShrinks(server, asked, cursor);
    return None, asked;
  }

  // ----- an honest server over a finite log -----

  /** Cursors name positions in the log; the first request stands for position 0. */
  function At(name: nat -> Key, p: nat): Request { if p == 0 then None else Some(name(p)) }

  ghost predicate Naming(name: nat -> Key, log: seq<Json>) {
    && (forall p :: 0 < p <= |log| ==> |name(p)| <= MAXIMUM_CURSOR_BYTES)
    && forall p, q :: 0 < p < q <= |log| ==> name(p) != name(q)
  }

  /** A page from position `p`: up to 100 items of the log, and either its end or the position after. */
  predicate HonestReply(log: seq<Json>, name: nat -> Key, p: nat, r: Reply) {
    && Good(r) && p + |r.items.value| <= |log| && r.items.value == log[p..p + |r.items.value|]
    && var q := p + |r.items.value|;
       if r.next.Absent? then q == |log| else p < q && r.next == Next(name(q))
  }

  ghost predicate Honest(server: Server, log: seq<Json>, name: nat -> Key) {
    && Naming(name, log)
    && forall asked: seq<Request>, p: nat ::
         p <= |log| && asked != [] && asked[|asked| - 1] == At(name, p) ==> HonestReply(log, name, p, server(asked))
  }

  /** Where each request stands in the log. */
  ghost predicate Standing(log: seq<Json>, name: nat -> Key, asked: seq<Request>, at: seq<nat>) {
    && |at| == |asked|
    && (forall i :: 0 <= i < |at| ==> asked[i] == At(name, at[i]) && at[i] <= |log| && at[i] <= i * MAXIMUM_PAGE_ITEMS)
    && forall i, j :: 0 <= i < j < |at| ==> at[i] < at[j]
  }

  /** Requests to an honest server stand at growing positions, with everything before the last read. */
  lemma {:induction false} HonestPositions(server: Server, log: seq<Json>, name: nat -> Key, asked: seq<Request>)
      returns (at: seq<nat>)
    requires Honest(server, log, name) && Chain(server, asked)
    ensures Standing(log, name, asked, at) && AllGood(server, asked)
    ensures Items(server, Before(asked)) == log[..at[|asked| - 1]]
  {
    hide Chain, AllGood, Items, Honest;
    if |asked| <= 1 {
      at := [0];
      FirstRequest(server, asked);
      assert asked[0] == At(name, 0);
      HonestAnswer(server, log, name, asked, 0);
      assert asked == [] + [None];
      GoodGrows(server, [], None);
    } else {
      var prior := LaterRequest(server, asked);
      at := HonestPositions(server, log, name, prior);
      var p, r := at[|prior| - 1], server(prior);
      HonestAnswer(server, log, name, prior, p);
      var q := p + |r.items.value|;
      assert log[..q] == log[..p] + log[p..q];
      at := at + [q];
      HonestAnswer(server, log, name, asked, q);
      GoodGrows(server, prior, asked[|prior|]);
      ItemsGrow(server, prior);
    }
  }

  lemma ItemsGrow(server: Server, asked: seq<Request>)
    requires asked != [] && AllGood(server, asked)
    ensures AllGood(server, Before(asked)) && Good(server(asked))
    ensures Items(server, asked) == Items(server, Before(asked)) + server(asked).items.value
  {
    assert asked[..|asked|] == asked;
  }

  lemma FirstRequest(server: Server, asked: seq<Request>)
    requires Chain(server, asked) && |asked| <= 1
    ensures asked == [None] && AllGood(server, []) && Items(server, []) == []
  {
  }

  lemma LaterRequest(server: Server, asked: seq<Request>) returns (prior: seq<Request>)
    requires Chain(server, asked) && |asked| > 1
    ensures prior == Before(asked) && Chain(server, prior) && Continues(server(prior))
    ensures asked == prior + [Some(server(prior).next.key)]
  {
    prior := Before(asked);
    assert asked == prior + [asked[|prior|]] && prior == asked[..|prior|];
    ChainShrinks(server, prior, asked[|prior|]);
  }

  lemma HonestAnswer(server: Server, log: seq<Json>, name: nat -> Key, asked: seq<Request>, p: nat)
    requires Honest(server, log, name) && p <= |log| && asked != [] && asked[|asked| - 1] == At(name, p)
    ensures HonestReply(log, name, p, server(asked))
  {
  }

  lemma StandingIsDistinct(log: seq<Json>, name: nat -> Key, asked: seq<Request>, at: seq<nat>)
    requires Naming(name, log) && Standing(log, name, asked, at)
    ensures Distinct(asked)
    ensures forall i :: 1 <= i < |asked| ==> asked[i].Some? && |asked[i].value| <= MAXIMUM_CURSOR_BYTES
  {
    assert forall i :: 1 <= i < |at| ==> at[0] < at[i];
  }

  lemma HonestReading(server: Server, log: seq<Json>, name: nat -> Key, asked: seq<Request>) returns (p: nat)
    requires Honest(server, log, name) && Chain(server, asked)
    ensures OnTrack(server, asked) && AllGood(server, asked) && p <= |log|
    ensures Items(server, Before(asked)) == log[..p] && HonestReply(log, name, p, server(asked))
  {
    hide Naming, AllGood, Items, HonestReply;
    var at := HonestPositions(server, log, name, asked);
    p := at[|asked| - 1];
    StandingIsDistinct(log, name, asked, at);
    HonestAnswer(server, log, name, asked, p);
  }

  /** Against an honest server the history read is exactly the log, and it is refused only when the
      server has not come to its end within 16 pages. */
  lemma HonestIsAllOrNothing(server: Server, log: seq<Json>, name: nat -> Key, asked: seq<Request>)
    requires Honest(server, log, name) && Chain(server, asked)
    ensures Complete(server, asked) <==> |asked| <= MAXIMUM_PUBLIC_PAGES && Ends(server(asked))
    ensures Complete(server, asked) ==> Items(server, asked) == log
  {
    hide Honest, OnTrack, AllGood, Items;
    var p := HonestReading(server, log, name, asked);
    if Ends(server(asked)) {
      ItemsGrow(server, asked);
      assert log[..p] + log[p..|log|] == log;
    }
  }

  /** An honest server that fills its pages. */
  predicate FullReply(log: seq<Json>, p: nat, r: Reply) {
    && (Ends(r) <==> |log| <= p + MAXIMUM_PAGE_ITEMS)
    && (Continues(r) ==> r.items.Some? && |r.items.value| == MAXIMUM_PAGE_ITEMS)
  }

  ghost predicate Full(server: Server, log: seq<Json>, name: nat -> Key) {
    && Honest(server, log, name)
    && forall asked: seq<Request>, p: nat ::
         p <= |log| && asked != [] && asked[|asked| - 1] == At(name, p) ==> FullReply(log, p, server(asked))
  }

  lemma FullAnswer(server: Server, log: seq<Json>, name: nat -> Key, asked: seq<Request>, p: nat)
    requires Full(server, log, name) && p <= |log| && asked != [] && asked[|asked| - 1] == At(name, p)
    ensures HonestReply(log, name, p, server(asked)) && FullReply(log, p, server(asked))
  {
  }

  lemma {:induction false} FullChain(server: Server, log: seq<Json>, name: nat -> Key, n: nat)
      returns (asked: seq<Request>)
    requires Full(server, log, name) && (n > 0 ==> n * MAXIMUM_PAGE_ITEMS < |log|)
    ensures Chain(server, asked) && |asked| == n + 1 && asked[n] == At(name, n * MAXIMUM_PAGE_ITEMS)
  {
    if n == 0 {
      asked := [None];
    } else {
      var prior := FullChain(server, log, name, n - 1);
      FullAnswer(server, log, name, prior, (n - 1) * MAXIMUM_PAGE_ITEMS);
      ChainGrows(server, prior);
      asked := prior + [Some(server(prior).next.key)];
    }
  }

  /** With full pages of 100, exactly the logs of at most 1600 items can be read. */
  lemma SixteenHundred(server: Server, log: seq<Json>, name: nat -> Key)
    requires Full(server, log, name)
    ensures (exists a :: Complete(server, a)) <==> |log| <= MAXIMUM_PUBLIC_PAGES * MAXIMUM_PAGE_ITEMS
  {
    if |log| <= MAXIMUM_PUBLIC_PAGES * MAXIMUM_PAGE_ITEMS {
      var n := if |log| == 0 then 0 else (|log| - 1) / MAXIMUM_PAGE_ITEMS;
      var asked := FullChain(server, log, name, n);
      FullAnswer(server, log, name, asked, n * MAXIMUM_PAGE_ITEMS);
      HonestIsAllOrNothing(server, log, name, asked);
      assert Complete(server, asked);
    }
    forall a | Complete(server, a)
      ensures |log| <= MAXIMUM_PUBLIC_PAGES * MAXIMUM_PAGE_ITEMS
    {
      var at := HonestPositions(server, log, name, a);
      FullAnswer(server, log, name, a, at[|a| - 1]);
    }
  }
}
