/** The gateway's replay cache and the verifier in front of it.

    The cache is shared by threads under a lock, so its behaviour is that of a sequence of calls in
    lock order; each call carries the clock sample it took, in any order. */
module ReplayCache {
  import opened Wrappers

  const MAX_REPLAY_ENTRIES := 4096

  type Jti = nat

  datatype Call = Call(now: int, jti: Jti, expiresAt: int)

  type Entries = map<Jti, int>

  function Live(entries: Entries, now: int): Entries {
    map k | k in entries && entries[k] > now :: entries[k]
  }

  /** Whether a call is accepted, given what was remembered before it. */
  predicate Admits(entries: Entries, capacity: nat, c: Call) {
    var live := Live(entries, c.now);
    c.jti !in live && |live| < capacity
  }

  function Remember(entries: Entries, capacity: nat, c: Call): Entries {
    var live := Live(entries, c.now);
    if Admits(entries, capacity, c) then live[c.jti := c.expiresAt] else live
  }

  /** What is remembered after a sequence of calls. */
  function After(capacity: nat, calls: seq<Call>): Entries {
    if calls == [] then map[]
    else Remember(After(capacity, calls[..|calls| - 1]), capacity, calls[|calls| - 1])
  }

  predicate Accepted(capacity: nat, calls: seq<Call>, i: nat)
    requires i < |calls|
  {
    Admits(After(capacity, calls[..i]), capacity, calls[i])
  }

  lemma LiveIsTheRest(entries: Entries, now: int)
    ensures entries - (set k | k in entries && entries[k] <= now) == Live(entries, now)
  {
  }

  class GatewayProbeReplayCache {
    const capacity: nat
    var entries: Entries
    ghost var calls: seq<Call>

    ghost predicate Valid()
      reads this
    {
      1 <= capacity <= MAX_REPLAY_ENTRIES && entries == After(capacity, calls)
    }

    constructor (capacity: nat)
      requires 1 <= capacity <= MAX_REPLAY_ENTRIES
      ensures Valid() && calls == [] && this.capacity == capacity
    {
      this.capacity := capacity;
      entries := map[];
      calls := [];
    }

    /** `remember_once`, inside the lock. */
    method RememberOnce(now: int, jti: Jti, expiresAt: int) returns (accepted: bool)
      requires Valid()
      modifies this
      ensures Valid() && calls == old(calls) + [Call(now, jti, expiresAt)]
      ensures accepted == Accepted(capacity, calls, |old(calls)|)
    {
      ghost var before := entries;
      var expired := set k | k in entries && entries[k] <= now;
      ghost var all := expired;
      while expired != {}
        invariant expired <= all
        invariant entries == before - (all - expired)
        invariant calls == old(calls)
        decreases |expired|
      {
        var key :| key in expired;
        entries := entries - {key};
        expired := expired - {key};
      }
      assert all - expired == all;
      LiveIsTheRest(before, now);
      calls := calls + [Call(now, jti, expiresAt)];
      assert calls[..|calls| - 1] == old(calls);
      if jti in entries { return false; }
      if |entries| >= capacity { return false; }
      entries := entries[jti := expiresAt];
      return true;
    }
  }

  // ----- every sequence of calls -----

  /** The call at `i` was accepted and no later call has sampled a clock at or past its expiry. */
  predicate Outstanding(capacity: nat, calls: seq<Call>, i: nat)
    requires i < |calls|
  {
    && Accepted(capacity, calls, i)
    && forall m :: i < m < |calls| ==> calls[m].now < calls[i].expiresAt
  }

  lemma OutstandingBefore(capacity: nat, calls: seq<Call>, i: nat)
    requires i + 1 < |calls|
    ensures var before := calls[..|calls| - 1];
      Outstanding(capacity, calls, i) <==>
        Outstanding(capacity, before, i) && calls[|calls| - 1].now < calls[i].expiresAt
  {
    hide Admits, After;
    var before := calls[..|calls| - 1];
    assert before[..i] == calls[..i];
    assert forall m :: 0 <= m < |before| ==> before[m] == calls[m];
  }

  lemma {:induction false} OutstandingIsRemembered(capacity: nat, calls: seq<Call>, i: nat)
    requires i < |calls| && Outstanding(capacity, calls, i)
    ensures calls[i].jti in After(capacity, calls) && After(capacity, calls)[calls[i].jti] == calls[i].expiresAt
    decreases |calls|
  {
    if i < |calls| - 1 {
      OutstandingBefore(capacity, calls, i);
      OutstandingIsRemembered(capacity, calls[..|calls| - 1], i);
    }
  }

  lemma {:induction false} RememberedIsOutstanding(capacity: nat, calls: seq<Call>, jti: Jti) returns (i: nat)
    requires jti in After(capacity, calls)
    ensures i < |calls| && calls[i].jti == jti && Outstanding(capacity, calls, i)
    decreases |calls|
  {
    var last := |calls| - 1;
    if jti in Live(After(capacity, calls[..last]), calls[last].now) {
      i := RememberedIsOutstanding(capacity, calls[..last], jti);
      OutstandingIsRemembered(capacity, calls[..last], i);
      OutstandingBefore(capacity, calls, i);
    } else {
      i := last;
    }
  }

  /** The cache remembers exactly the outstanding calls: an entry is there if and only if its call was
      accepted and no clock sampled since has reached its expiry.  No refused call loses one. */
  lemma RemembersOutstanding(capacity: nat, calls: seq<Call>, jti: Jti)
    ensures jti in After(capacity, calls) <==>
            exists i :: 0 <= i < |calls| && calls[i].jti == jti && Outstanding(capacity, calls, i)
    ensures forall i :: 0 <= i < |calls| && calls[i].jti == jti && Outstanding(capacity, calls, i)
              ==> jti in After(capacity, calls) && After(capacity, calls)[jti] == calls[i].expiresAt
  {
    hide After, Outstanding;
    if jti in After(capacity, calls) {
      var i := RememberedIsOutstanding(capacity, calls, jti);
    }
    forall i | 0 <= i < |calls| && calls[i].jti == jti && Outstanding(capacity, calls, i)
      ensures jti in After(capacity, calls) && After(capacity, calls)[jti] == calls[i].expiresAt
    {
      OutstandingIsRemembered(capacity, calls, i);
    }
  }

  /** Calls from `i` on, up to and including `k`, sampled clocks short of the expiry accepted at `i`. */
  predicate StillHeld(calls: seq<Call>, i: nat, k: nat)
    requires i < k < |calls|
  {
    forall m :: i < m <= k ==> calls[m].now < calls[i].expiresAt
  }

  /** Single use, exactly: a token is refused if and only if there is no room, or it was accepted before
      and no call since, this one included, sampled a clock at or past that expiry. */
  lemma RefusedExactlyWhileHeld(capacity: nat, calls: seq<Call>, k: nat)
    requires k < |calls|
    ensures !Accepted(capacity, calls, k) <==>
            || |Live(After(capacity, calls[..k]), calls[k].now)| >= capacity
            || exists i :: 0 <= i < k && calls[i].jti == calls[k].jti && Accepted(capacity, calls, i)
                           && StillHeld(calls, i, k)
  {
    hide After;
    var before := calls[..k];
    forall i | 0 <= i < k && calls[i].jti == calls[k].jti && Accepted(capacity, calls, i) && StillHeld(calls, i, k)
      ensures !Accepted(capacity, calls, k)
    {
      HeldIsOutstanding(capacity, calls, i, k);
      OutstandingIsRemembered(capacity, before, i);
    }
    if !Accepted(capacity, calls, k) && |Live(After(capacity, before), calls[k].now)| < capacity {
      var i := RememberedIsOutstanding(capacity, before, calls[k].jti);
      OutstandingIsRemembered(capacity, before, i);
      HeldIsOutstanding(capacity, calls, i, k);
    }
  }

  lemma HeldIsOutstanding(capacity: nat, calls: seq<Call>, i: nat, k: nat)
    requires i < k < |calls|
    ensures Accepted(capacity, calls, i) && StillHeld(calls, i, k) <==>
            Outstanding(capacity, calls[..k], i) && calls[k].now < calls[i].expiresAt
  {
    hide After, Admits;
    var before := calls[..k];
    assert before[..i] == calls[..i] && before[i] == calls[i];
    forall m | i < m <= k
      ensures m < k ==> before[m] == calls[m]
    {
    }
  }

  lemma {:induction false} NeverOverCapacity(capacity: nat, calls: seq<Call>)
    ensures |After(capacity, calls)| <= capacity
  {
    if calls != [] {
      var before := After(capacity, calls[..|calls| - 1]);
      NeverOverCapacity(capacity, calls[..|calls| - 1]);
      var live := Live(before, calls[|calls| - 1].now);
      assert live.Keys <= before.Keys;
      FewerKeys(live.Keys, before.Keys);
    }
  }

  lemma {:induction false} FewerKeys(a: set<Jti>, b: set<Jti>)
    requires a <= b
    ensures |a| <= |b|
  {
    if a != {} {
      var x :| x in a;
      FewerKeys(a - {x}, b - {x});
    }
  }

  // ----- the verifier in front of the cache -----

  datatype Code = UntrustedGrant | TemporallyInvalid | AudienceMismatch | RequestMismatch | Replayed

  datatype ProbeRequest = ProbeRequest(kind: nat, target: string, digest: seq<nat>)

  datatype Grant = Grant(issuer: string, audience: string, gateway: string, workspace: string,
                         issuedAt: int, expiresAt: int, jti: Jti,
                         kind: nat, target: string, digest: seq<nat>)

  datatype Claims = Claims(issuer: string, audience: string, issuedAt: int, expiresAt: int, jti: Jti,
                           grant: Option<Grant>)

  /** A capability as the token library opens it: refused with a code, or its signed claims.  The
      request is what the body decodes to, if it does. */
  datatype Attempt = Attempt(request: Option<ProbeRequest>, refused: Option<Code>, claims: Claims)

  datatype Verifier = Verifier(issuer: string, audience: string, gateway: string, skew: int)

  predicate BoundClaims(c: Claims, g: Grant) {
    && c.issuer == g.issuer && c.audience == g.audience
    && c.issuedAt == g.issuedAt && c.expiresAt == g.expiresAt && c.jti == g.jti
  }

  predicate Authorized(v: Verifier, g: Grant) {
    && g.issuer == v.issuer && g.audience == v.audience && g.gateway == v.gateway
    && g.audience == "gateway:" + g.workspace + ":" + g.gateway
  }

  predicate InWindow(v: Verifier, issuedAt: int, expiresAt: int, now: int) {
    issuedAt <= now + v.skew && now - v.skew < expiresAt
  }

  predicate Asks(g: Grant, r: ProbeRequest) {
    g.kind == r.kind && g.target == r.target && g.digest == r.digest
  }

  /** The grant an attempt carries, when everything but the cache admits it. */
  predicate Grants(v: Verifier, a: Attempt, now: int, g: Grant) {
    && a.request.Some? && a.refused.None? && a.claims.grant == Some(g)
    && BoundClaims(a.claims, g) && Authorized(v, g) && InWindow(v, g.issuedAt, g.expiresAt, now)
    && Asks(g, a.request.value)
  }

  /** The checks before the cache, in their order, with the codes they refuse with. */
  function EarlyRefusal(v: Verifier, a: Attempt, now: int): Option<Code> {
    if a.request.None? then Some(RequestMismatch)
    else if a.refused.Some? then a.refused
    else if a.claims.grant.None? then Some(UntrustedGrant)
    else
      var g := a.claims.grant.value;
      if !BoundClaims(a.claims, g) then Some(RequestMismatch)
      else if !Authorized(v, g) then Some(AudienceMismatch)
      else if !InWindow(v, g.issuedAt, g.expiresAt, now) then Some(TemporallyInvalid)
      else if !Asks(g, a.request.value) then Some(RequestMismatch)
      else None
  }

  class Ed25519GatewayProbeVerifier {
    const settings: Verifier
    const cache: GatewayProbeReplayCache

    constructor (settings: Verifier, cache: GatewayProbeReplayCache)
      requires 0 <= settings.skew <= 30
      ensures this.settings == settings && this.cache == cache
    {
      this.settings, this.cache := settings, cache;
    }

    /** `verify`: the cache is asked last, and only for an attempt everything else admits. */
    method Verify(a: Attempt, now: int, cacheNow: int) returns (refusal: Option<Code>)
      requires cache.Valid()
      modifies cache
      ensures cache.Valid()
      ensures forall g | Grants(settings, a, now, g) ::
        && cache.calls == old(cache.calls) + [Call(cacheNow, g.jti, g.expiresAt)]
        && (refusal.None? <==> Accepted(cache.capacity, cache.calls, |old(cache.calls)|))
        && (refusal.Some? ==> refusal == Some(Replayed))
      ensures (forall g :: !Grants(settings, a, now, g)) ==>
        && refusal.Some? && refusal == EarlyRefusal(settings, a, now)
        && cache.calls == old(cache.calls) && cache.entries == old(cache.entries)
    {
      if a.request.None? { return Some(RequestMismatch); }
      if a.refused.Some? { return a.refused; }
      if a.claims.grant.None? { return Some(UntrustedGrant); }
      var g := a.claims.grant.value;
      if !BoundClaims(a.claims, g) { return Some(RequestMismatch); }
      if !Authorized(settings, g) { return Some(AudienceMismatch); }
      if g.issuedAt > now + settings.skew || g.expiresAt <= now - settings.skew {
        return Some(TemporallyInvalid);
      }
      if !Asks(g, a.request.value) { return Some(RequestMismatch); }
      assert Grants(settings, a, now, g);
      var accepted := cache.RememberOnce(cacheNow, g.jti, g.expiresAt);
      if !accepted { return Some(Replayed); }
      return None;
    }
  }

  /** Single use holds up to the expiry only: the verifier's window is longer than the cache's memory
      by the skew, and with any skew at all a token is accepted a second time inside its window. */
  lemma AcceptedTwiceWithinSkew(v: Verifier, issuedAt: int, expiresAt: int, jti: Jti, capacity: nat)
    requires v.skew >= 1 && issuedAt < expiresAt && capacity >= 1
    ensures var calls := [Call(expiresAt - 1, jti, expiresAt), Call(expiresAt, jti, expiresAt)];
      && (forall i :: 0 <= i < 2 ==> InWindow(v, issuedAt, expiresAt, calls[i].now))
      && Accepted(capacity, calls, 0) && Accepted(capacity, calls, 1)
  {
    var first := Call(expiresAt - 1, jti, expiresAt);
    var calls := [first, Call(expiresAt, jti, expiresAt)];
    assert calls[..0] == [] && calls[..1] == [first] && [first][..0] == [];
    assert Live(map[], expiresAt - 1) == map[];
    assert After(capacity, [first]) == map[jti := expiresAt];
    assert Live(map[jti := expiresAt], expiresAt) == map[];
  }
}
