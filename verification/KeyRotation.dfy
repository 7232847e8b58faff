/**
 JWT signing-key rotation seen through cached key sets
 (internal/auth/token.go, internal/auth/remote_verifier.go).

 Signers publish at most two keys; verifiers cache what they fetched and refetch
 when the cache is old or, at most once per refresh interval, when a token does
 not verify. Signatures are ideal: a token verifies under the key that signed it.
 Times are seconds on one clock.
 */
module KeyRotation {
  import opened Options

  type Kid = nat
  type VerifierId = nat
  type CallId = nat

  const TTL: nat := 15 * 60       // NewRemoteVerifier
  const REFRESH: nat := 30        // NewRemoteVerifier
  const SKEW: nat := 30           // NewVerifier

  // ---------------------------------------------------------------- tokens

  /** `signedBy` is the key that made the signature, None for a made-up one. */
  datatype Token = Token(kid: Kid, signedBy: Option<Kid>, issuer: string, audience: string,
                         notBefore: int, expires: int, complete: bool)

  datatype Verdict = Accepted | UnknownKey | BadSignature | BadClaims | NoKeys

  /** Verifier.Verify over one key set. */
  function Check(jwks: seq<Kid>, issuer: string, t: Token, audience: string, now: int): Verdict {
    if t.kid !in jwks then UnknownKey
    else if t.signedBy != Some(t.kid) then BadSignature
    else if t.issuer != issuer || t.audience != audience then BadClaims
    else if now < t.notBefore - SKEW || t.expires + SKEW <= now then BadClaims
    else if !t.complete then BadClaims
    else Accepted
  }

  // ---------------------------------------------------------------- signer

  /** The two key slots of a Signer. */
  datatype Slots = Slots(current: Kid, previous: Option<Kid>)

  /** The signing key first, then the extra one. */
  function Jwks(k: Slots): seq<Kid> {
    [k.current] + (if k.previous.Some? then [k.previous.value] else [])
  }

  class Signer {
    const current: Kid
    const issuer: string
    var previous: Option<Kid>

    constructor (key: Kid, issuer: string)
      ensures current == key && this.issuer == issuer && previous == None
    {
      current, this.issuer, previous := key, issuer, None;
    }

    function View(): Slots
      reads this
    {
      Slots(current, previous)
    }

    /** Refused exactly for the key that already signs; then nothing changes. */
    method WithPreviousKey(key: Kid) returns (ok: bool)
      modifies this
      ensures ok <==> key != current
      ensures View() == if ok then Slots(current, Some(key)) else old(View())
      ensures ok ==> Jwks(View()) == [current, key]
    {
      if key == current {
        return false;
      }
      previous := Some(key);
      return true;
    }

    /**
     Refused exactly for incomplete claims; otherwise a token any verifier holding
     the published set accepts for its audience while it lasts.
     */
    method Issue(user: string, account: string, tenant: string, audience: string, now: int, ttl: nat) returns (t: Option<Token>)
      ensures t.Some? <==> user != "" && account != "" && tenant != "" && audience != ""
      ensures t.Some? ==> t.value.kid == current
      ensures t.Some? ==> forall jwks: seq<Kid>, at :: current in jwks && now <= at < now + ttl + SKEW ==>
        Check(jwks, issuer, t.value, audience, at) == Accepted
      ensures t.Some? ==> forall jwks: seq<Kid>, at :: at >= now + ttl + SKEW ==>
        Check(jwks, issuer, t.value, audience, at) != Accepted
      ensures t.Some? ==> forall jwks: seq<Kid>, other, at :: other != audience || at < now - SKEW ==>
        Check(jwks, issuer, t.value, other, at) != Accepted
    {
      if user == "" || account == "" || tenant == "" || audience == "" {
        return None;
      }
      t := Some(IssuedToken(View(), issuer, audience, now, ttl));
    }
  }

  function IssuedToken(k: Slots, issuer: string, audience: string, now: int, ttl: nat): Token {
    Token(k.current, Some(k.current), issuer, audience, now, now + ttl, true)
  }

  // ---------------------------------------------------------------- one verifier

  /** `fetchedAt` is the time the fetching call was given, `readAt` when the issuer really answered. */
  datatype Cache = Empty | Cached(jwks: seq<Kid>, fetchedAt: int, readAt: int)

  /** An empty set does not parse into a verifier. */
  function Usable(answer: Option<seq<Kid>>): bool {
    answer.Some? && answer.value != []
  }

  predicate NeedsFetch(c: Cache, force: bool, now: int) {
    force || c.Empty? || now - c.fetchedAt >= TTL
  }

  /** RemoteVerifier.keys: the cache afterwards; Empty means the call returned an error. */
  function Keys(c: Cache, force: bool, now: int, answer: Option<seq<Kid>>, at: int): Cache {
    if NeedsFetch(c, force, now) && Usable(answer) then Cached(answer.value, now, at) else c
  }

  function CheckCache(c: Cache, issuer: string, t: Token, audience: string, now: int): Verdict {
    if c.Empty? then NoKeys else Check(c.jwks, issuer, t, audience, now)
  }

  /** Verify stops after the first check unless the key set is at least one refresh interval old. */
  predicate Retries(c: Cache, issuer: string, t: Token, audience: string, now: int) {
    c.Cached? && CheckCache(c, issuer, t, audience, now) != Accepted && now - c.fetchedAt >= REFRESH
  }

  /** One call of Verify with what the issuer would answer to its first and second fetch. */
  datatype Request = Request(token: Token, audience: string, now: int,
                             first: Option<seq<Kid>>, second: Option<seq<Kid>>)

  function CacheAfter(c: Cache, issuer: string, r: Request): Cache {
    var c1 := Keys(c, false, r.now, r.first, r.now);
    if Retries(c1, issuer, r.token, r.audience, r.now) then Keys(c1, true, r.now, r.second, r.now) else c1
  }

  function VerdictOf(c: Cache, issuer: string, r: Request): Verdict {
    CheckCache(CacheAfter(c, issuer, r), issuer, r.token, r.audience, r.now)
  }

  /** A fetch: when, and whether it got a set that parses. */
  datatype Attempt = Attempt(at: int, answered: bool)

  /** The fetches a call makes. */
  function FetchesOf(c: Cache, issuer: string, r: Request): seq<Attempt> {
    var c1 := Keys(c, false, r.now, r.first, r.now);
    (if NeedsFetch(c, false, r.now) then [Attempt(r.now, Usable(r.first))] else []) +
    (if Retries(c1, issuer, r.token, r.audience, r.now) then [Attempt(r.now, Usable(r.second))] else [])
  }

  class RemoteVerifier {
    const issuer: string
    var verifier: Option<seq<Kid>>
    var fetchedAt: int
    ghost var readAt: int
    ghost var fetches: seq<Attempt>

    constructor (issuer: string)
      ensures this.issuer == issuer && View() == Empty && fetches == []
    {
      this.issuer, verifier, fetchedAt, readAt, fetches := issuer, None, 0, 0, [];
    }

    ghost function View(): Cache
      reads this
    {
      if verifier.None? then Empty else Cached(verifier.value, fetchedAt, readAt)
    }

    /** keys: serve the cache, or fetch; a failed fetch serves what there is. */
    method GetKeys(force: bool, now: int, answer: Option<seq<Kid>>) returns (v: Option<seq<Kid>>, at: int)
      modifies this
      ensures View() == Keys(old(View()), force, now, answer, now)
      ensures fetches == old(fetches) + if NeedsFetch(old(View()), force, now) then [Attempt(now, Usable(answer))] else []
      ensures v == verifier && (v.Some? ==> at == fetchedAt)
      ensures !force && old(verifier).Some? && now - old(fetchedAt) < TTL ==>
        verifier == old(verifier) && fetchedAt == old(fetchedAt) && fetches == old(fetches)
      ensures force || old(verifier).None? || now - old(fetchedAt) >= TTL ==>
        && |fetches| == |old(fetches)| + 1
        && if answer.Some? && answer.value != [] then verifier == answer && fetchedAt == now
           else verifier == old(verifier) && fetchedAt == old(fetchedAt)
    {
      if !force && verifier.Some? && now - fetchedAt < TTL {
        return verifier, fetchedAt;
      }
      fetches := fetches + [Attempt(now, Usable(answer))];
      if !Usable(answer) {
        return verifier, fetchedAt;
      }
      verifier, fetchedAt, readAt := answer, now, now;
      return verifier, fetchedAt;
    }

    /** Verify: check, and once more over a fresh set when the cached one is old enough. */
    method Verify(r: Request) returns (verdict: Verdict)
      modifies this
      ensures View() == CacheAfter(old(View()), issuer, r)
      ensures verdict == VerdictOf(old(View()), issuer, r)
      ensures fetches == old(fetches) + FetchesOf(old(View()), issuer, r)
      ensures verdict == Accepted <==>
        && verifier.Some? && r.token.kid in verifier.value && r.token.signedBy == Some(r.token.kid)
        && r.token.issuer == issuer && r.token.audience == r.audience && r.token.complete
        && r.token.notBefore - SKEW <= r.now < r.token.expires + SKEW
      ensures verdict == NoKeys <==> verifier.None?
      ensures verdict != Accepted && verifier.Some? ==>
        r.now - fetchedAt < REFRESH || (|fetches| > |old(fetches)| && fetches[|fetches| - 1] == Attempt(r.now, false))
      ensures |fetches| == |old(fetches)| ==> verifier == old(verifier) && fetchedAt == old(fetchedAt)
    {
      var v, at := GetKeys(false, r.now, r.first);
      if v.None? {
        return NoKeys;
      }
      verdict := Check(v.value, issuer, r.token, r.audience, r.now);
      if verdict == Accepted {
        return;
      }
      if r.now - at < REFRESH {
        return;
      }
      v, at := GetKeys(true, r.now, r.second);
      verdict := Check(v.value, issuer, r.token, r.audience, r.now);
    }
  }

  // ---------------------------------------------------------------- fetch rate

  predicate Ordered(rs: seq<Request>) {
    forall i, j :: 0 <= i < j < |rs| ==> rs[i].now <= rs[j].now
  }

  predicate IssuerUp(rs: seq<Request>) {
    forall i :: 0 <= i < |rs| ==> Usable(rs[i].first) && Usable(rs[i].second)
  }

  function FetchLog(c: Cache, issuer: string, rs: seq<Request>): seq<Attempt>
    decreases |rs|
  {
    if rs == [] then [] else FetchesOf(c, issuer, rs[0]) + FetchLog(CacheAfter(c, issuer, rs[0]), issuer, rs[1..])
  }

  predicate Spaced(log: seq<Attempt>) {
    forall i :: 0 < i < |log| ==> log[i].at - log[i - 1].at >= REFRESH
  }

  /** What one call does to the fetches and the cache. */
  lemma CallFetches(c: Cache, issuer: string, r: Request)
    ensures var log := FetchesOf(c, issuer, r); var c' := CacheAfter(c, issuer, r);
      && |log| <= 2 && (forall i :: 0 <= i < |log| ==> log[i].at == r.now)
      && (|log| == 2 ==> !log[0].answered)
      && (c.Cached? && log != [] ==> r.now - c.fetchedAt >= REFRESH)
      && if log != [] && log[|log| - 1].answered then c'.Cached? && c'.fetchedAt == r.now else c' == c
  {
  }

  /** No fetch comes less than `REFRESH` after one that got an answer. */
  ghost predicate AnswersHold(log: seq<Attempt>) {
    forall i, j :: 0 <= i < j < |log| && log[i].answered ==> log[j].at - log[i].at >= REFRESH
  }

  ghost predicate NotBefore(log: seq<Attempt>, t: int) {
    forall j :: 0 <= j < |log| ==> log[j].at >= t
  }

  /**
   In any run of calls one after the other, whatever the issuer does: no fetch
   follows an answered one within the refresh interval, so of two fetches that are
   closer the earlier got no usable answer.
   */
  lemma {:induction false} CloseFetchesMeanNoAnswer(c: Cache, issuer: string, rs: seq<Request>)
    requires Ordered(rs)
    ensures AnswersHold(FetchLog(c, issuer, rs))
    ensures rs != [] ==> NotBefore(FetchLog(c, issuer, rs), rs[0].now)
    ensures c.Cached? ==> NotBefore(FetchLog(c, issuer, rs), c.fetchedAt + REFRESH)
    decreases |rs|
  {
    if rs != [] {
      var c' := CacheAfter(c, issuer, rs[0]);
      CallFetches(c, issuer, rs[0]);
      CloseFetchesMeanNoAnswer(c', issuer, rs[1..]);
      AppendCall(FetchesOf(c, issuer, rs[0]), FetchLog(c', issuer, rs[1..]), rs[0].now);
      assert NotBefore(FetchesOf(c, issuer, rs[0]), rs[0].now);
      if |rs| > 1 { assert rs[1..][0] == rs[1] && rs[0].now <= rs[1].now; }
    }
  }

  lemma AppendCall(here: seq<Attempt>, rest: seq<Attempt>, now: int)
    requires |here| <= 2 && (|here| == 2 ==> !here[0].answered) && forall i :: 0 <= i < |here| ==> here[i].at == now
    requires AnswersHold(rest) && (here != [] && here[|here| - 1].answered ==> NotBefore(rest, now + REFRESH))
    ensures AnswersHold(here + rest)
  {
    var log := here + rest;
    forall i, j | 0 <= i < j < |log| && log[i].answered ensures log[j].at - log[i].at >= REFRESH {
      if i >= |here| { assert log[i] == rest[i - |here|] && log[j] == rest[j - |here|]; }
      else if j >= |here| { assert log[j] == rest[j - |here|]; }
    }
  }

  lemma {:induction false} UpMeansAnswered(c: Cache, issuer: string, rs: seq<Request>)
    requires IssuerUp(rs)
    ensures forall i :: 0 <= i < |FetchLog(c, issuer, rs)| ==> FetchLog(c, issuer, rs)[i].answered
    decreases |rs|
  {
    if rs != [] { UpMeansAnswered(CacheAfter(c, issuer, rs[0]), issuer, rs[1..]); }
  }

  /** While the issuer answers, calls made one after the other fetch at least a refresh interval apart. */
  lemma FetchesSpaced(c: Cache, issuer: string, rs: seq<Request>)
    requires Ordered(rs) && IssuerUp(rs)
    ensures Spaced(FetchLog(c, issuer, rs))
  {
    CloseFetchesMeanNoAnswer(c, issuer, rs);
    UpMeansAnswered(c, issuer, rs);
  }

  lemma {:induction false} SpacedSum(log: seq<Attempt>, i: nat, j: nat)
    requires Spaced(log) && i <= j < |log|
    ensures log[j].at - log[i].at >= 30 * (j - i)
    decreases j - i
  {
    if i < j { SpacedSum(log, i, j - 1); }
  }

  /** Hence at most one fetch per refresh interval, plus one, whatever tokens are presented. */
  lemma FetchesInWindow(c: Cache, issuer: string, rs: seq<Request>, i: nat, j: nat, width: nat)
    requires Ordered(rs) && IssuerUp(rs)
    requires i < j <= |FetchLog(c, issuer, rs)|
    requires FetchLog(c, issuer, rs)[j - 1].at - FetchLog(c, issuer, rs)[i].at <= width
    ensures j - i <= width / REFRESH + 1
  {
    FetchesSpaced(c, issuer, rs);
    SpacedSum(FetchLog(c, issuer, rs), i, j - 1);
    assert REFRESH == 30;
  }

  /** A single call fetches twice exactly when its set has expired, cannot be renewed and does not accept the token. */
  lemma TwoFetchesInOneCall(c: Cache, issuer: string, r: Request)
    ensures |FetchesOf(c, issuer, r)| == 2 <==>
      && c.Cached? && r.now - c.fetchedAt >= TTL && !Usable(r.first)
      && CheckCache(c, issuer, r.token, r.audience, r.now) != Accepted
  {
  }

  // ---------------------------------------------------------------- when no choice of tokens hurts

  /** A call without its token. */
  datatype Occasion = Occasion(now: int, first: Option<seq<Kid>>, second: Option<seq<Kid>>)

  datatype Presented = Presented(token: Token, audience: string)

  function Ask(o: Occasion, p: Presented): Request {
    Request(p.token, p.audience, o.now, o.first, o.second)
  }

  function Calls(os: seq<Occasion>, ps: seq<Presented>): (rs: seq<Request>)
    requires |ps| == |os|
    ensures |rs| == |os|
    ensures forall i :: 0 <= i < |rs| ==> rs[i] == Ask(os[i], ps[i])
  {
    if os == [] then []
    else [Ask(os[0], ps[0])] + Calls(os[1..], ps[1..])
  }

  predicate InTime(os: seq<Occasion>) {
    forall i, j :: 0 <= i < j < |os| ==> os[i].now <= os[j].now
  }

  /** Whatever tokens are presented, the fetches keep the refresh interval. */
  ghost predicate SpacedForAllTokens(c: Cache, issuer: string, os: seq<Occasion>) {
    forall ps: seq<Presented> :: |ps| == |os| ==> Spaced(FetchLog(c, issuer, Calls(os, ps)))
  }

  function FetchedAt(c: Cache): Option<int> {
    if c.Empty? then None else Some(c.fetchedAt)
  }

  /** The next call, if any, comes a refresh interval later. */
  predicate Pause(os: seq<Occasion>) {
    |os| > 1 ==> os[1].now - os[0].now >= REFRESH
  }

  /**
   Times and answers alone: an expired set is always renewed, and after any other
   fetch that fails there is a pause. A set between the two ages may be refetched
   or not, as the token goes.
   */
  predicate Calm(fetched: Option<int>, os: seq<Occasion>)
    decreases |os|
  {
    if os == [] then true
    else if fetched.None? then
      if Usable(os[0].first) then Calm(Some(os[0].now), os[1..]) else Pause(os) && Calm(None, os[1..])
    else if os[0].now - fetched.value >= TTL then Usable(os[0].first) && Calm(Some(os[0].now), os[1..])
    else
      && Calm(fetched, os[1..])
      && (os[0].now - fetched.value >= REFRESH ==> if Usable(os[0].second) then Calm(Some(os[0].now), os[1..]) else Pause(os))
  }

  /** A token nobody signed, and one that a key of the set signed and that is valid now. */
  function Bogus(): Presented {
    Presented(Token(0, None, "", "", 0, 0, false), "")
  }

  function Good(jwks: seq<Kid>, issuer: string, now: int): Presented
    requires jwks != []
  {
    Presented(Token(jwks[0], Some(jwks[0]), issuer, "", now, now + 1, true), "")
  }

  lemma SpacedAppend(here: seq<Attempt>, rest: seq<Attempt>, now: int)
    requires |here| <= 1 && (here != [] ==> here[0].at == now)
    requires Spaced(rest) && (here != [] ==> NotBefore(rest, now + REFRESH))
    ensures Spaced(here + rest)
  {
    var log := here + rest;
    forall i | 0 < i < |log| ensures log[i].at - log[i - 1].at >= REFRESH {
      if i > |here| { assert rest[i - |here|].at - rest[i - |here| - 1].at >= REFRESH; }
    }
  }

  lemma NotSpacedAppend(here: seq<Attempt>, rest: seq<Attempt>)
    requires !Spaced(rest)
    ensures !Spaced(here + rest)
  {
    var i :| 0 < i < |rest| && rest[i].at - rest[i - 1].at < REFRESH;
    var log := here + rest;
    assert log[|here| + i] == rest[i] && log[|here| + i - 1] == rest[i - 1];
  }

  lemma {:induction false} CalmIsSpaced(c: Cache, issuer: string, os: seq<Occasion>, ps: seq<Presented>)
    requires InTime(os) && |ps| == |os| && Calm(FetchedAt(c), os)
    ensures Spaced(FetchLog(c, issuer, Calls(os, ps)))
    decreases |os|
  {
    if os != [] {
      var rs := Calls(os, ps);
      var here := FetchesOf(c, issuer, rs[0]);
      var c' := CacheAfter(c, issuer, rs[0]);
      assert rs[1..] == Calls(os[1..], ps[1..]);
      CallFetches(c, issuer, rs[0]);
      TwoFetchesInOneCall(c, issuer, rs[0]);
      CalmIsSpaced(c', issuer, os[1..], ps[1..]);
      CloseFetchesMeanNoAnswer(c', issuer, rs[1..]);
      SpacedAppend(here, FetchLog(c', issuer, rs[1..]), rs[0].now);
    }
  }

  /** What the two kinds of token do to a set of each age. */
  lemma TokensAndAges(c: Cache, issuer: string, o: Occasion)
    requires c.Cached? ==> c.jwks != []
    ensures c.Empty? || o.now - c.fetchedAt >= TTL ==>
      (Usable(o.first) ==> CacheAfter(c, issuer, Ask(o, Bogus())) == Cached(o.first.value, o.now, o.now))
    ensures c.Empty? && !Usable(o.first) ==> CacheAfter(c, issuer, Ask(o, Bogus())) == c
    ensures c.Cached? && o.now - c.fetchedAt < TTL ==> CacheAfter(c, issuer, Ask(o, Good(c.jwks, issuer, o.now))) == c
    ensures c.Cached? && REFRESH <= o.now - c.fetchedAt < TTL && Usable(o.second) ==>
      CacheAfter(c, issuer, Ask(o, Bogus())) == Cached(o.second.value, o.now, o.now)
  {
  }

  /** The first call with this token, then whatever breaks the rest. */
  lemma ExtendBreak(c: Cache, issuer: string, os: seq<Occasion>, p: Presented, c': Cache, ps: seq<Presented>)
    requires |os| == |ps| + 1 && CacheAfter(c, issuer, Ask(os[0], p)) == c'
    requires !Spaced(FetchLog(c', issuer, Calls(os[1..], ps)))
    ensures !Spaced(FetchLog(c, issuer, Calls(os, [p] + ps)))
  {
    var rs := Calls(os, [p] + ps);
    assert rs[1..] == Calls(os[1..], ps);
    NotSpacedAppend(FetchesOf(c, issuer, rs[0]), FetchLog(c', issuer, rs[1..]));
  }

  /** Two bogus tokens after a fetch that fails, with no pause between. */
  lemma BreakAtOnce(c: Cache, issuer: string, os: seq<Occasion>) returns (ps: seq<Presented>)
    requires |os| > 1 && !Pause(os)
    requires if c.Empty? then !Usable(os[0].first)
      else REFRESH <= os[0].now - c.fetchedAt < TTL && !Usable(os[0].second) && os[0].now <= os[1].now
    ensures |ps| == |os| && !Spaced(FetchLog(c, issuer, Calls(os, ps)))
  {
    ps := seq(|os|, _ => Bogus());
    var rs := Calls(os, ps);
    var rest := FetchLog(c, issuer, rs[1..]);
    assert rs[1..][0] == rs[1];
    assert CacheAfter(c, issuer, rs[0]) == c && FetchesOf(c, issuer, rs[0]) == [Attempt(rs[0].now, false)];
    assert FetchesOf(c, issuer, rs[1]) != [] && FetchesOf(c, issuer, rs[1])[0].at == rs[1].now;
    var log := FetchLog(c, issuer, rs);
    assert log == [Attempt(rs[0].now, false)] + rest;
    assert log[1] == rest[0] && log[1].at - log[0].at < REFRESH;
  }

  /** A bogus token over an expired set that is not renewed. */
  lemma ExpiredBreaks(c: Cache, issuer: string, os: seq<Occasion>) returns (ps: seq<Presented>)
    requires os != [] && c.Cached? && os[0].now - c.fetchedAt >= TTL && !Usable(os[0].first)
    ensures |ps| == |os| && !Spaced(FetchLog(c, issuer, Calls(os, ps)))
  {
    ps := seq(|os|, _ => Bogus());
    var log := FetchLog(c, issuer, Calls(os, ps));
    assert log[0].at == os[0].now && log[1].at == os[0].now;
  }

  lemma {:induction false} UncalmBreaks(c: Cache, issuer: string, os: seq<Occasion>) returns (ps: seq<Presented>)
    requires InTime(os) && (c.Cached? ==> c.jwks != []) && !Calm(FetchedAt(c), os)
    ensures |ps| == |os| && !Spaced(FetchLog(c, issuer, Calls(os, ps)))
    decreases |os|
  {
    var o := os[0];
    TokensAndAges(c, issuer, o);
    var p, c';
    if c.Empty? || o.now - c.fetchedAt >= TTL {
      if !Usable(o.first) && c.Cached? {
        ps := ExpiredBreaks(c, issuer, os);
        return;
      }
      if !Usable(o.first) && !Pause(os) {
        ps := BreakAtOnce(c, issuer, os);
        return;
      }
      p, c' := Bogus(), if Usable(o.first) then Cached(o.first.value, o.now, o.now) else c;
    } else if !Calm(FetchedAt(c), os[1..]) {
      p, c' := Good(c.jwks, issuer, o.now), c;
    } else if Usable(o.second) {
      p, c' := Bogus(), Cached(o.second.value, o.now, o.now);
    } else {
      ps := BreakAtOnce(c, issuer, os);
      return;
    }
    var rest := UncalmBreaks(c', issuer, os[1..]);
    ps := [p] + rest;
    ExtendBreak(c, issuer, os, p, c', rest);
  }

  /** For calls one after the other, exactly which times and answers keep the rate whatever tokens come. */
  lemma SpacedForAllTokensIff(c: Cache, issuer: string, os: seq<Occasion>)
    requires InTime(os) && (c.Cached? ==> c.jwks != [])
    ensures SpacedForAllTokens(c, issuer, os) <==> Calm(FetchedAt(c), os)
  {
    if Calm(FetchedAt(c), os) {
      forall ps: seq<Presented> | |ps| == |os| ensures Spaced(FetchLog(c, issuer, Calls(os, ps))) {
        CalmIsSpaced(c, issuer, os, ps);
      }
    } else {
      var ps := UncalmBreaks(c, issuer, os);
    }
  }

  /** Every renewal is answered, and every refetch that the next call follows within a refresh interval. */
  predicate Answered(os: seq<Occasion>) {
    forall i :: 0 <= i < |os| ==> AnsweredAt(os, i)
  }

  predicate AnsweredAt(os: seq<Occasion>, i: nat)
    requires i < |os|
  {
    Usable(os[i].first) && (Usable(os[i].second) || (i + 1 < |os| ==> os[i + 1].now - os[i].now >= REFRESH))
  }

  lemma AnsweredSuffix(os: seq<Occasion>, i: nat)
    requires Answered(os) && i <= |os|
    ensures Answered(os[i..])
  {
    forall j | 0 <= j < |os[i..]| ensures AnsweredAt(os[i..], j) {
      assert AnsweredAt(os, i + j);
    }
  }

  lemma {:induction false} AnsweredIsCalm(fetched: Option<int>, os: seq<Occasion>)
    requires Answered(os)
    ensures Calm(fetched, os)
    decreases |os|
  {
    if os != [] {
      assert AnsweredAt(os, 0);
      AnsweredSuffix(os, 1);
      AnsweredIsCalm(fetched, os[1..]);
      AnsweredIsCalm(Some(os[0].now), os[1..]);
    }
  }

  /** From the i-th call on, over a set of whatever age, the rate is kept whatever tokens come. */
  ghost predicate SpacedFrom(c: Cache, issuer: string, os: seq<Occasion>, i: nat)
    requires i <= |os|
  {
    (c.Cached? ==> c.jwks != []) ==> SpacedForAllTokens(c, issuer, os[i..])
  }

  lemma AnsweredIsSpaced(c: Cache, issuer: string, os: seq<Occasion>, i: nat)
    requires InTime(os) && Answered(os) && i <= |os|
    ensures SpacedFrom(c, issuer, os, i)
  {
    if c.Cached? ==> c.jwks != [] {
      AnsweredSuffix(os, i);
      AnsweredIsCalm(FetchedAt(c), os[i..]);
      SpacedForAllTokensIff(c, issuer, os[i..]);
    }
  }

  /** A cache old enough for the fetch that fails. */
  lemma UnansweredIsNotSpaced(issuer: string, os: seq<Occasion>, i: nat) returns (c: Cache)
    requires InTime(os) && i < |os| && !AnsweredAt(os, i)
    ensures !SpacedFrom(c, issuer, os, i)
  {
    var age := if Usable(os[i].first) then REFRESH else TTL;
    c := Cached([0], os[i].now - age, os[i].now - age);
    assert os[i..][0] == os[i];
    assert !Calm(FetchedAt(c), os[i..]);
    SpacedForAllTokensIff(c, issuer, os[i..]);
  }

  ghost predicate AlwaysSpaced(issuer: string, os: seq<Occasion>) {
    forall c, i :: 0 <= i <= |os| ==> SpacedFrom(c, issuer, os, i)
  }

  /** The rate is kept from every call and cache on exactly when the issuer answers every fetch that matters. */
  lemma AlwaysSpacedIff(issuer: string, os: seq<Occasion>)
    requires InTime(os)
    ensures AlwaysSpaced(issuer, os) <==> Answered(os)
  {
    if AlwaysSpaced(issuer, os) {
      forall i | 0 <= i < |os| ensures AnsweredAt(os, i) {
        if !AnsweredAt(os, i) {
          var c := UnansweredIsNotSpaced(issuer, os, i);
        }
      }
    }
    if Answered(os) {
      forall c, i | 0 <= i <= |os| ensures SpacedFrom(c, issuer, os, i) { AnsweredIsSpaced(c, issuer, os, i); }
    }
  }

  function Repeat(r: Request, n: nat): (rs: seq<Request>)
    ensures |rs| == n && forall i :: 0 <= i < n ==> rs[i] == r
  {
    seq(n, _ => r)
  }

  /** With the issuer down, n calls at one instant make n fetches: a failed one never moves `fetchedAt`. */
  lemma {:induction false} OutageFetchesEveryTime(c: Cache, issuer: string, r: Request, n: nat)
    requires !Usable(r.first) && !Usable(r.second) && r.token.signedBy.None?
    requires c.Empty? || REFRESH <= r.now - c.fetchedAt < TTL
    ensures Ordered(Repeat(r, n)) && |FetchLog(c, issuer, Repeat(r, n))| == n
    ensures forall i :: 0 <= i < n ==> FetchLog(c, issuer, Repeat(r, n))[i] == Attempt(r.now, false)
    decreases n
  {
    if n > 0 {
      assert Repeat(r, n)[1..] == Repeat(r, n - 1);
      assert FetchesOf(c, issuer, r) == [Attempt(r.now, false)] && CacheAfter(c, issuer, r) == c;
      OutageFetchesEveryTime(c, issuer, r, n - 1);
      assert FetchLog(c, issuer, Repeat(r, n)) == [Attempt(r.now, false)] + FetchLog(c, issuer, Repeat(r, n - 1));
    }
  }

  // ---------------------------------------------------------------- replicas and verifiers together

  const ISSUER := "exchange"

  datatype Call = Call(verifier: VerifierId, token: Token, audience: string, now: int, retrying: bool)

  /** How a call that was made at `asked` ended at `at`; `fetchFailed` says its last fetch found no issuer. */
  datatype Outcome = Outcome(token: Token, audience: string, verdict: Verdict, asked: int, at: int, fetchFailed: bool)

  datatype World = World(
    now: int,
    replicas: seq<Slots>,
    caches: map<VerifierId, Cache>,
    calls: map<CallId, Call>,
    since: map<Kid, int>,          // history: from when a key has been published by every replica
    issued: set<Token>,            // history
    outcomes: seq<Outcome>)        // history

  datatype Step =
    | Tick(elapsed: nat)
    | Deploy(replica: nat, slots: Slots)                    // a replica restarts with other keys
    | Issue(replica: nat, audience: string, ttl: nat)
    | Begin(call: CallId, verifier: VerifierId, token: Token, audience: string)
    | First(call: CallId, replica: nat, up: bool)           // keys(false) and the check
    | Second(call: CallId, replica: nat, up: bool)          // keys(true) and the check

  predicate PublishedByAll(replicas: seq<Slots>, k: Kid) {
    forall i :: 0 <= i < |replicas| ==> k in Jwks(replicas[i])
  }

  function AllPublished(replicas: seq<Slots>): (ks: set<Kid>)
    requires replicas != []
    ensures forall k :: k in ks <==> PublishedByAll(replicas, k)
  {
    assert forall k :: PublishedByAll(replicas, k) ==> k in Jwks(replicas[0]);
    set k | k in Jwks(replicas[0]) && PublishedByAll(replicas, k)
  }

  function CacheOf(w: World, v: VerifierId): Cache {
    if v in w.caches then w.caches[v] else Empty
  }

  function Fetch(w: World, replica: nat, up: bool): Option<seq<Kid>> {
    if up && replica < |w.replicas| then Some(Jwks(w.replicas[replica])) else None
  }

  function End(w: World, c: CallId, cache: Cache, fetchFailed: bool): World
    requires c in w.calls
  {
    var k := w.calls[c];
    w.(caches := w.caches[k.verifier := cache], calls := w.calls - {c},
       outcomes := w.outcomes + [Outcome(k.token, k.audience, CheckCache(cache, ISSUER, k.token, k.audience, k.now), k.now, w.now, fetchFailed)])
  }

  function Apply(w: World, step: Step): World {
    match step
    case Tick(d) => w.(now := w.now + d)
    case Deploy(i, slots) =>
      if i >= |w.replicas| || slots.previous == Some(slots.current) then w
      else
        var replicas := w.replicas[i := slots];
        w.(replicas := replicas,
           since := map k | k in AllPublished(replicas) :: if k in w.since then w.since[k] else w.now)
    case Issue(i, audience, ttl) =>
      if i >= |w.replicas| then w
      else w.(issued := w.issued + {IssuedToken(w.replicas[i], ISSUER, audience, w.now, ttl)})
    case Begin(c, v, t, audience) =>
      // nobody can present a signature that has not been made
      if c in w.calls || (t.signedBy.Some? && t !in w.issued) then w
      else w.(calls := w.calls[c := Call(v, t, audience, w.now, false)])
    case First(c, i, up) =>
      if c !in w.calls || w.calls[c].retrying then w
      else
        var k := w.calls[c];
        var before := CacheOf(w, k.verifier);
        var cache := Keys(before, false, k.now, Fetch(w, i, up), w.now);
        if Retries(cache, ISSUER, k.token, k.audience, k.now)
        then w.(caches := w.caches[k.verifier := cache], calls := w.calls[c := k.(retrying := true)])
        else End(w, c, cache, NeedsFetch(before, false, k.now) && Fetch(w, i, up).None?)
    case Second(c, i, up) =>
      if c !in w.calls || !w.calls[c].retrying then w
      else
        var k := w.calls[c];
        End(w, c, Keys(CacheOf(w, k.verifier), true, k.now, Fetch(w, i, up), w.now), Fetch(w, i, up).None?)
  }

  /**
   What the operators must keep to: a replica starts signing with a key only when
   every replica has published it for at least `lead`, and stops publishing a key
   only when every token signed with it has expired.
   */
  ghost predicate Disciplined(w: World, step: Step, lead: nat) {
    match step
    case Deploy(i, slots) =>
      i < |w.replicas| ==> forall t :: t in w.issued && t.kid !in Jwks(slots) ==> t.expires <= w.now
    case Issue(i, _, _) =>
      i < |w.replicas| ==>
        var k := w.replicas[i].current;
        k in w.since && w.since[k] + lead <= w.now
    case _ => true
  }

  function Run(w: World, steps: seq<Step>): World
    decreases |steps|
  {
    if steps == [] then w else Run(Apply(w, steps[0]), steps[1..])
  }

  ghost predicate DisciplinedRun(w: World, steps: seq<Step>, lead: nat)
    decreases |steps|
  {
    steps != [] ==> Disciplined(w, steps[0], lead) && DisciplinedRun(Apply(w, steps[0]), steps[1..], lead)
  }

  ghost predicate Init(w: World) {
    && w.replicas != []
    && w.caches == map[] && w.calls == map[] && w.issued == {} && w.outcomes == []
    && w.since == map k | k in AllPublished(w.replicas) :: w.now
  }

  // ---------------------------------------------------------------- invariant

  ghost predicate SinceSound(w: World) {
    && w.replicas != []
    && w.since.Keys == AllPublished(w.replicas)
    && forall k :: k in w.since ==> w.since[k] <= w.now
  }

  ghost predicate TokenSound(w: World, lead: nat, t: Token) {
    && t.signedBy == Some(t.kid) && t.issuer == ISSUER && t.complete && t.notBefore <= w.now
    && (w.now < t.expires ==> t.kid in w.since && w.since[t.kid] + lead <= t.notBefore)
  }

  /** A cached set holds every key that had been published by all before the set was read. */
  ghost predicate CacheSound(w: World, c: Cache) {
    c.Cached? ==>
      && c.fetchedAt <= c.readAt <= w.now
      && forall k :: k in w.since && w.since[k] < c.readAt ==> k in c.jwks
  }

  ghost predicate CallSound(w: World, k: Call) {
    k.now <= w.now && (k.token.signedBy.Some? ==> k.token in w.issued && k.token.notBefore <= k.now)
  }

  /** No genuine token was refused for its own audience while it was valid and the issuer answered. */
  ghost predicate Fair(w: World, o: Outcome) {
    o.token in w.issued && o.audience == o.token.audience && o.at < o.token.expires && !o.fetchFailed ==>
      o.verdict == Accepted
  }

  ghost predicate Inv(w: World, lead: nat) {
    && SinceSound(w)
    && (forall t :: t in w.issued ==> TokenSound(w, lead, t))
    && (forall v :: v in w.caches ==> CacheSound(w, w.caches[v]))
    && (forall c :: c in w.calls ==> CallSound(w, w.calls[c]))
    && (forall i :: 0 <= i < |w.outcomes| ==> w.outcomes[i].at <= w.now && Fair(w, w.outcomes[i]))
    && (forall i :: 0 <= i < |w.outcomes| && w.outcomes[i].token.signedBy.Some? ==> w.outcomes[i].token in w.issued)
  }

  lemma DeployKeepsInv(w: World, i: nat, slots: Slots, lead: nat)
    requires Inv(w, lead) && Disciplined(w, Deploy(i, slots), lead)
    ensures Inv(Apply(w, Deploy(i, slots)), lead)
  {
    var w' := Apply(w, Deploy(i, slots));
    if w' != w {
      forall t | t in w.issued ensures TokenSound(w', lead, t) {
        assert TokenSound(w, lead, t);
        if w.now < t.expires {
          assert PublishedByAll(w.replicas, t.kid);
          assert PublishedByAll(w'.replicas, t.kid);
        }
      }
    }
  }

  lemma IssueKeepsInv(w: World, i: nat, audience: string, ttl: nat, lead: nat)
    requires Inv(w, lead) && Disciplined(w, Issue(i, audience, ttl), lead)
    ensures Inv(Apply(w, Issue(i, audience, ttl)), lead)
  {
    var w' := Apply(w, Issue(i, audience, ttl));
    forall t | t in w'.issued ensures TokenSound(w', lead, t) {
      if t in w.issued { assert TokenSound(w, lead, t); }
    }
    forall k | 0 <= k < |w'.outcomes| ensures Fair(w', w'.outcomes[k]) {
      assert Fair(w, w.outcomes[k]);
    }
  }

  /** A set fetched now holds every key that all replicas publish. */
  lemma FreshCacheSound(w: World, before: Cache, force: bool, now: int, replica: nat, up: bool)
    requires SinceSound(w) && CacheSound(w, before) && now <= w.now
    ensures CacheSound(w, Keys(before, force, now, Fetch(w, replica, up), w.now))
  {
    if up && replica < |w.replicas| {
      forall k | k in w.since ensures k in Jwks(w.replicas[replica]) {
        assert PublishedByAll(w.replicas, k);
      }
    }
  }

  /** A sound set that lacks the key of a valid token was fetched at least `lead` before the call. */
  lemma MissingKeyMeansOldSet(w: World, lead: nat, cache: Cache, k: Call)
    requires Inv(w, lead) && lead >= REFRESH && CacheSound(w, cache) && CallSound(w, k)
    requires cache.Cached? && k.token in w.issued && k.audience == k.token.audience && w.now < k.token.expires
    requires CheckCache(cache, ISSUER, k.token, k.audience, k.now) != Accepted
    ensures k.token.kid !in cache.jwks && k.now - cache.fetchedAt >= REFRESH
  {
    assert TokenSound(w, lead, k.token);
  }

  /** Two sound outcomes lists differ by one fair outcome. */
  lemma EndKeepsInv(w: World, lead: nat, c: CallId, cache: Cache, fetchFailed: bool)
    requires Inv(w, lead) && c in w.calls && CacheSound(w, cache)
    requires Fair(w, Outcome(w.calls[c].token, w.calls[c].audience,
                             CheckCache(cache, ISSUER, w.calls[c].token, w.calls[c].audience, w.calls[c].now), w.calls[c].now, w.now, fetchFailed))
    ensures Inv(End(w, c, cache, fetchFailed), lead)
  {
    var w' := End(w, c, cache, fetchFailed);
    forall v | v in w'.caches ensures CacheSound(w', w'.caches[v]) {
      if v != w.calls[c].verifier { assert CacheSound(w, w.caches[v]); }
    }
    assert CallSound(w, w.calls[c]);
    forall x | x in w'.calls ensures CallSound(w', w'.calls[x]) {
      assert CallSound(w, w.calls[x]);
    }
    forall t | t in w'.issued ensures TokenSound(w', lead, t) {
      assert TokenSound(w, lead, t);
    }
    forall i | 0 <= i < |w'.outcomes| ensures w'.outcomes[i].at <= w'.now && Fair(w', w'.outcomes[i]) {
      if i < |w.outcomes| { assert Fair(w, w.outcomes[i]); }
    }
  }

  lemma RetryKeepsInv(w: World, lead: nat, c: CallId, cache: Cache)
    requires Inv(w, lead) && c in w.calls && CacheSound(w, cache)
    ensures Inv(w.(caches := w.caches[w.calls[c].verifier := cache], calls := w.calls[c := w.calls[c].(retrying := true)]), lead)
  {
    var w' := w.(caches := w.caches[w.calls[c].verifier := cache], calls := w.calls[c := w.calls[c].(retrying := true)]);
    forall t | t in w'.issued ensures TokenSound(w', lead, t) { assert TokenSound(w, lead, t); }
    forall v | v in w'.caches ensures CacheSound(w', w'.caches[v]) {
      if v != w.calls[c].verifier { assert CacheSound(w, w.caches[v]); }
    }
    forall x | x in w'.calls ensures CallSound(w', w'.calls[x]) { assert CallSound(w, w.calls[x]); }
    forall x | 0 <= x < |w'.outcomes| ensures Fair(w', w'.outcomes[x]) { assert Fair(w, w.outcomes[x]); }
  }

  lemma FirstKeepsInv(w: World, c: CallId, i: nat, up: bool, lead: nat)
    requires Inv(w, lead) && lead >= REFRESH
    ensures Inv(Apply(w, First(c, i, up)), lead)
  {
    if c in w.calls && !w.calls[c].retrying {
      var k := w.calls[c];
      var before := CacheOf(w, k.verifier);
      assert CallSound(w, k);
      FreshCacheSound(w, before, false, k.now, i, up);
      var cache := Keys(before, false, k.now, Fetch(w, i, up), w.now);
      var failed := NeedsFetch(before, false, k.now) && Fetch(w, i, up).None?;
      if Retries(cache, ISSUER, k.token, k.audience, k.now) {
        RetryKeepsInv(w, lead, c, cache);
      } else {
        var o := Outcome(k.token, k.audience, CheckCache(cache, ISSUER, k.token, k.audience, k.now), k.now, w.now, failed);
        if o.token in w.issued && o.audience == o.token.audience && o.at < o.token.expires && !failed && o.verdict != Accepted {
          MissingKeyMeansOldSet(w, lead, cache, k);
          assert false;
        }
        EndKeepsInv(w, lead, c, cache, failed);
      }
    }
  }

  lemma SecondKeepsInv(w: World, c: CallId, i: nat, up: bool, lead: nat)
    requires Inv(w, lead) && lead >= REFRESH
    ensures Inv(Apply(w, Second(c, i, up)), lead)
  {
    if c in w.calls && w.calls[c].retrying {
      var k := w.calls[c];
      var before := CacheOf(w, k.verifier);
      assert CallSound(w, k);
      FreshCacheSound(w, before, true, k.now, i, up);
      var cache := Keys(before, true, k.now, Fetch(w, i, up), w.now);
      var failed := Fetch(w, i, up).None?;
      if k.token in w.issued && w.now < k.token.expires && !failed {
        assert TokenSound(w, lead, k.token);
        assert PublishedByAll(w.replicas, k.token.kid);
      }
      EndKeepsInv(w, lead, c, cache, failed);
    }
  }

  lemma StepKeepsInv(w: World, step: Step, lead: nat)
    requires Inv(w, lead) && Disciplined(w, step, lead) && lead >= REFRESH
    ensures Inv(Apply(w, step), lead)
  {
    match step
    case Tick(d) => TickKeepsInv(w, d, lead);
    case Deploy(i, slots) => DeployKeepsInv(w, i, slots, lead);
    case Issue(i, audience, ttl) => IssueKeepsInv(w, i, audience, ttl, lead);
    case Begin(c, v, t, audience) => BeginKeepsInv(w, c, v, t, audience, lead);
    case First(c, i, up) => FirstKeepsInv(w, c, i, up, lead);
    case Second(c, i, up) => SecondKeepsInv(w, c, i, up, lead);
  }

  lemma TickKeepsInv(w: World, d: nat, lead: nat)
    requires Inv(w, lead)
    ensures Inv(Apply(w, Tick(d)), lead)
  {
    var w' := Apply(w, Tick(d));
    forall t | t in w'.issued ensures TokenSound(w', lead, t) { assert TokenSound(w, lead, t); }
    forall v | v in w'.caches ensures CacheSound(w', w'.caches[v]) { assert CacheSound(w, w.caches[v]); }
    forall x | x in w'.calls ensures CallSound(w', w'.calls[x]) { assert CallSound(w, w.calls[x]); }
    forall x | 0 <= x < |w'.outcomes| ensures Fair(w', w'.outcomes[x]) { assert Fair(w, w.outcomes[x]); }
  }

  lemma BeginKeepsInv(w: World, c: CallId, v: VerifierId, t: Token, audience: string, lead: nat)
    requires Inv(w, lead)
    ensures Inv(Apply(w, Begin(c, v, t, audience)), lead)
  {
    var w' := Apply(w, Begin(c, v, t, audience));
    forall x | x in w'.issued ensures TokenSound(w', lead, x) { assert TokenSound(w, lead, x); }
    forall x | x in w'.caches ensures CacheSound(w', w'.caches[x]) { assert CacheSound(w, w.caches[x]); }
    forall x | x in w'.calls ensures CallSound(w', w'.calls[x]) { if x in w.calls { assert CallSound(w, w.calls[x]); } }
    forall x | 0 <= x < |w'.outcomes| ensures Fair(w', w'.outcomes[x]) { assert Fair(w, w.outcomes[x]); }
  }

  lemma {:induction false} RunKeepsInv(w: World, steps: seq<Step>, lead: nat)
    requires Inv(w, lead) && DisciplinedRun(w, steps, lead) && lead >= REFRESH
    ensures Inv(Run(w, steps), lead)
    decreases |steps|
  {
    if steps != [] {
      StepKeepsInv(w, steps[0], lead);
      RunKeepsInv(Apply(w, steps[0]), steps[1..], lead);
    }
  }

  // ---------------------------------------------------------------- the rotation theorem

  /** Keeping every key published for `lead` before its first use never costs a valid token. */
  ghost predicate SafeLead(lead: nat) {
    forall w: World, steps: seq<Step> :: Init(w) && DisciplinedRun(w, steps, lead) ==>
      forall i :: 0 <= i < |Run(w, steps).outcomes| ==> Fair(Run(w, steps), Run(w, steps).outcomes[i])
  }

  lemma InitKeepsInv(w: World, lead: nat)
    requires Init(w)
    ensures Inv(w, lead)
  {
  }

  lemma TwoSlots(replicas: seq<Slots>, a: Kid, b: Kid)
    requires |replicas| == 1 && replicas[0] == Slots(a, Some(b))
    ensures AllPublished(replicas) == {a, b}
  {
    assert forall k :: PublishedByAll(replicas, k) <==> k in Jwks(replicas[0]);
  }

  /** A verifier that fetched just before the new key was published refuses its tokens until it may refetch. */
  lemma ShortLeadLosesToken(lead: nat) returns (w: World, steps: seq<Step>)
    requires lead < REFRESH
    ensures Init(w) && DisciplinedRun(w, steps, lead)
    ensures |Run(w, steps).outcomes| == 2 && !Fair(Run(w, steps), Run(w, steps).outcomes[1])
  {
    var junk := Token(1, None, ISSUER, "internal", 0, 0, true);
    var t := IssuedToken(Slots(2, Some(1)), ISSUER, "internal", lead, 900);
    w := World(0, [Slots(1, None)], map[], map[], map[1 := 0], {}, []);
    assert AllPublished(w.replicas) == {1} by {
      assert forall k :: PublishedByAll(w.replicas, k) <==> k in Jwks(w.replicas[0]);
    }
    var w2, first := FetchOldSet(w, junk, lead);
    var w5, roll := RollOut(w2, lead);
    var w8, last := UseNewKey(w5, t, lead);
    steps := first + (roll + last);
    Concat(w, first, roll + last, lead);
    Concat(w2, roll, last, lead);
  }

  lemma FetchOldSet(w: World, junk: Token, lead: nat) returns (w2: World, steps: seq<Step>)
    requires w == World(0, [Slots(1, None)], map[], map[], map[1 := 0], {}, [])
    requires junk == Token(1, None, ISSUER, "internal", 0, 0, true)
    ensures w2 == World(0, [Slots(1, None)], map[0 := Cached([1], 0, 0)], map[], map[1 := 0], {},
                        [Outcome(junk, "internal", BadSignature, 0, 0, false)])
    ensures Run(w, steps) == w2 && DisciplinedRun(w, steps, lead)
  {
    var w1 := Apply(w, Begin(0, 0, junk, "internal"));
    w2 := Apply(w1, First(0, 0, true));
    assert Jwks(w1.replicas[0]) == [1];
    assert w2.caches == map[0 := Cached([1], 0, 0)] && w2.calls == map[];
    steps := [Begin(0, 0, junk, "internal")] + ([First(0, 0, true)] + []);
    Unroll(w, Begin(0, 0, junk, "internal"), [First(0, 0, true)] + [], lead);
    Unroll(w1, First(0, 0, true), [], lead);
  }

  /** A single replica deployed with keys that keep everything published. */
  lemma DeployBoth(w: World, slots: Slots, since: map<Kid, int>, lead: nat)
    requires |w.replicas| == 1 && w.issued == {} && slots.previous.Some? && slots.previous != Some(slots.current)
    requires since == map k | k in {slots.current, slots.previous.value} :: if k in w.since then w.since[k] else w.now
    ensures Apply(w, Deploy(0, slots)) == w.(replicas := [slots], since := since)
    ensures Disciplined(w, Deploy(0, slots), lead)
  {
    assert w.replicas[0 := slots] == [slots];
    TwoSlots([slots], slots.current, slots.previous.value);
    assert Apply(w, Deploy(0, slots)).since == since;
  }

  lemma RollOut(w2: World, lead: nat) returns (w5: World, steps: seq<Step>)
    requires w2.now == 0 && w2.replicas == [Slots(1, None)] && w2.since == map[1 := 0] && w2.issued == {}
    ensures w5 == w2.(now := lead, replicas := [Slots(2, Some(1))], since := map[1 := 0, 2 := 0])
    ensures Run(w2, steps) == w5 && DisciplinedRun(w2, steps, lead)
  {
    var w3 := w2.(replicas := [Slots(1, Some(2))], since := map[1 := 0, 2 := 0]);
    var w4 := w3.(now := lead);
    w5 := w4.(replicas := [Slots(2, Some(1))]);
    DeployBoth(w2, Slots(1, Some(2)), w3.since, lead);
    DeployBoth(w4, Slots(2, Some(1)), w3.since, lead);
    steps := [Deploy(0, Slots(1, Some(2)))] + ([Tick(lead)] + ([Deploy(0, Slots(2, Some(1)))] + []));
    Unroll(w2, Deploy(0, Slots(1, Some(2))), [Tick(lead)] + ([Deploy(0, Slots(2, Some(1)))] + []), lead);
    Unroll(w3, Tick(lead), [Deploy(0, Slots(2, Some(1)))] + [], lead);
    Unroll(w4, Deploy(0, Slots(2, Some(1))), [], lead);
  }

  lemma UseNewKey(w5: World, t: Token, lead: nat) returns (w8: World, steps: seq<Step>)
    requires lead < REFRESH
    requires w5.now == lead && w5.replicas == [Slots(2, Some(1))] && w5.since == map[1 := 0, 2 := 0]
    requires w5.caches == map[0 := Cached([1], 0, 0)] && w5.calls == map[] && w5.issued == {}
    requires t == IssuedToken(Slots(2, Some(1)), ISSUER, "internal", lead, 900)
    ensures Run(w5, steps) == w8 && DisciplinedRun(w5, steps, lead)
    ensures w8.issued == {t} && w8.outcomes == w5.outcomes + [Outcome(t, "internal", UnknownKey, lead, lead, false)]
  {
    var w6 := Apply(w5, Issue(0, "internal", 900));
    assert w6.issued == {t};
    var w7 := Apply(w6, Begin(1, 0, t, "internal"));
    w8 := Apply(w7, First(1, 0, true));
    steps := [Issue(0, "internal", 900)] + ([Begin(1, 0, t, "internal")] + ([First(1, 0, true)] + []));
    Unroll(w5, Issue(0, "internal", 900), [Begin(1, 0, t, "internal")] + ([First(1, 0, true)] + []), lead);
    Unroll(w6, Begin(1, 0, t, "internal"), [First(1, 0, true)] + [], lead);
    Unroll(w7, First(1, 0, true), [], lead);
  }

  lemma {:induction false} Concat(w: World, a: seq<Step>, b: seq<Step>, lead: nat)
    ensures Run(w, a + b) == Run(Run(w, a), b)
    ensures DisciplinedRun(w, a + b, lead) <==> DisciplinedRun(w, a, lead) && DisciplinedRun(Run(w, a), b, lead)
    decreases |a|
  {
    if a == [] {
      assert a + b == b;
    } else {
      assert (a + b)[1..] == a[1..] + b;
      Concat(Apply(w, a[0]), a[1..], b, lead);
    }
  }

  lemma Unroll(w: World, step: Step, rest: seq<Step>, lead: nat)
    ensures Run(w, [step] + rest) == Run(Apply(w, step), rest)
    ensures DisciplinedRun(w, [step] + rest, lead) <==> Disciplined(w, step, lead) && DisciplinedRun(Apply(w, step), rest, lead)
  {
    assert ([step] + rest)[1..] == rest;
  }

  /**
   The rotation theorem: valid tokens are never refused, by any verifier at any
   cache age and with any interleaving, exactly when keys are published at least
   one refresh interval before their first use.
   */
  lemma LeadIsSafeIff(lead: nat)
    ensures SafeLead(lead) <==> lead >= REFRESH
  {
    if lead >= REFRESH {
      forall w: World, steps: seq<Step> | Init(w) && DisciplinedRun(w, steps, lead)
        ensures forall i :: 0 <= i < |Run(w, steps).outcomes| ==> Fair(Run(w, steps), Run(w, steps).outcomes[i])
      {
        InitKeepsInv(w, lead);
        RunKeepsInv(w, steps, lead);
      }
    } else {
      var w, steps := ShortLeadLosesToken(lead);
    }
  }

  // ---------------------------------------------------------------- what is never accepted

  /** An accepted token was issued, is used for its own audience, and was within its time bounds when presented. */
  ghost predicate Earned(w: World, o: Outcome) {
    o.verdict == Accepted ==>
      && o.token in w.issued && o.audience == o.token.audience && o.token.issuer == ISSUER && o.token.complete
      && o.token.notBefore - SKEW <= o.asked < o.token.expires + SKEW && o.asked <= o.at
  }

  /** Nobody presents a signature that has not been made, and no call is from the future. */
  ghost predicate CallsGenuine(w: World) {
    forall c :: c in w.calls ==> w.calls[c].now <= w.now && (w.calls[c].token.signedBy.Some? ==> w.calls[c].token in w.issued)
  }

  ghost predicate AllEarned(w: World) {
    forall i :: 0 <= i < |w.outcomes| ==> Earned(w, w.outcomes[i])
  }

  lemma CheckMeans(jwks: seq<Kid>, issuer: string, t: Token, audience: string, now: int)
    ensures Check(jwks, issuer, t, audience, now) == Accepted <==>
      && t.kid in jwks && t.signedBy == Some(t.kid) && t.issuer == issuer && t.audience == audience
      && t.notBefore - SKEW <= now < t.expires + SKEW && t.complete
  {
  }

  lemma EndStaysEarned(w: World, c: CallId, cache: Cache, failed: bool)
    requires CallsGenuine(w) && AllEarned(w) && c in w.calls
    ensures CallsGenuine(End(w, c, cache, failed)) && AllEarned(End(w, c, cache, failed))
  {
    var w' := End(w, c, cache, failed);
    var k := w.calls[c];
    if cache.Cached? { CheckMeans(cache.jwks, ISSUER, k.token, k.audience, k.now); }
    forall i | 0 <= i < |w'.outcomes| ensures Earned(w', w'.outcomes[i]) {
      if i < |w.outcomes| { assert Earned(w, w.outcomes[i]); }
    }
  }

  lemma StepStaysEarned(w: World, step: Step)
    requires CallsGenuine(w) && AllEarned(w)
    ensures CallsGenuine(Apply(w, step)) && AllEarned(Apply(w, step))
  {
    var w' := Apply(w, step);
    if w'.outcomes == w.outcomes {
      forall i | 0 <= i < |w'.outcomes| ensures Earned(w', w'.outcomes[i]) { assert Earned(w, w.outcomes[i]); }
    }
    match step
    case First(c, i, up) =>
      if c in w.calls && !w.calls[c].retrying {
        var before := CacheOf(w, w.calls[c].verifier);
        var cache := Keys(before, false, w.calls[c].now, Fetch(w, i, up), w.now);
        EndStaysEarned(w, c, cache, NeedsFetch(before, false, w.calls[c].now) && Fetch(w, i, up).None?);
      }
    case Second(c, i, up) =>
      if c in w.calls && w.calls[c].retrying {
        var cache := Keys(CacheOf(w, w.calls[c].verifier), true, w.calls[c].now, Fetch(w, i, up), w.now);
        EndStaysEarned(w, c, cache, Fetch(w, i, up).None?);
      }
    case _ =>
  }

  lemma {:induction false} RunStaysEarned(w: World, steps: seq<Step>)
    requires CallsGenuine(w) && AllEarned(w)
    ensures AllEarned(Run(w, steps))
    decreases |steps|
  {
    if steps != [] {
      StepStaysEarned(w, steps[0]);
      RunStaysEarned(Apply(w, steps[0]), steps[1..]);
    }
  }

  /**
   Over every run, however keys are deployed and whatever the issuer does: whatever
   a verifier accepts was issued by a signer, for the audience it is used for, and
   was within its time bounds when it was presented.
   */
  lemma OnlyIssuedIsAccepted(w: World, steps: seq<Step>)
    requires Init(w)
    ensures AllEarned(Run(w, steps))
  {
    RunStaysEarned(w, steps);
  }

  /** An outcome says truly whether its call's last fetch reached the issuer. */
  lemma OutcomeTellsFetch(w: World, c: CallId, i: nat, up: bool)
    requires c in w.calls
    ensures var o := Apply(w, Second(c, i, up)).outcomes;
      w.calls[c].retrying ==> |o| == |w.outcomes| + 1 && (o[|w.outcomes|].fetchFailed <==> !up || i >= |w.replicas|)
    ensures var o := Apply(w, First(c, i, up)).outcomes; var before := CacheOf(w, w.calls[c].verifier);
      |o| > |w.outcomes| ==> (o[|w.outcomes|].fetchFailed <==>
        (before.Empty? || w.calls[c].now - before.fetchedAt >= TTL) && (!up || i >= |w.replicas|))
  {
  }

  /** A refetch that reaches a replica replaces the verifier's set, any other leaves it, and the token is judged by what is there then. */
  lemma RefetchMeans(w: World, c: CallId, i: nat, up: bool)
    requires c in w.calls && w.calls[c].retrying
    ensures var k := w.calls[c]; var w' := Apply(w, Second(c, i, up)); var set_ := CacheOf(w', k.verifier);
      && w'.calls == w.calls - {c} && w'.now == w.now && w'.replicas == w.replicas && w'.issued == w.issued
      && set_ == (if up && i < |w.replicas| then Cached(Jwks(w.replicas[i]), k.now, w.now) else CacheOf(w, k.verifier))
      && (forall v :: v != k.verifier ==> CacheOf(w', v) == CacheOf(w, v))
      && var o := w'.outcomes[|w.outcomes|];
      && w'.outcomes == w.outcomes + [o] && o.token == k.token && o.audience == k.audience && o.at == w.now && o.asked == k.now
      && (o.verdict == Accepted <==>
          && set_.Cached? && k.token.kid in set_.jwks && k.token.signedBy == Some(k.token.kid) && k.token.issuer == ISSUER
          && k.token.audience == k.audience && k.token.notBefore - SKEW <= k.now < k.token.expires + SKEW && k.token.complete)
  {
  }

  // ---------------------------------------------------------------- overlapping calls

  /** The fetches a step makes for verifier v. */
  function AttemptsOf(w: World, step: Step, v: VerifierId): seq<Attempt> {
    match step
    case First(c, i, up) =>
      if c in w.calls && !w.calls[c].retrying && w.calls[c].verifier == v && NeedsFetch(CacheOf(w, v), false, w.calls[c].now)
      then [Attempt(w.now, Fetch(w, i, up).Some?)] else []
    case Second(c, i, up) =>
      if c in w.calls && w.calls[c].retrying && w.calls[c].verifier == v then [Attempt(w.now, Fetch(w, i, up).Some?)] else []
    case _ => []
  }

  function RunAttempts(w: World, steps: seq<Step>, v: VerifierId): seq<Attempt>
    decreases |steps|
  {
    if steps == [] then [] else AttemptsOf(w, steps[0], v) + RunAttempts(Apply(w, steps[0]), steps[1..], v)
  }

  lemma {:induction false} AttemptsConcat(w: World, a: seq<Step>, b: seq<Step>, v: VerifierId)
    ensures RunAttempts(w, a + b, v) == RunAttempts(w, a, v) + RunAttempts(Run(w, a), b, v)
    decreases |a|
  {
    if a == [] {
      assert a + b == b;
    } else {
      assert (a + b)[1..] == a[1..] + b;
      AttemptsConcat(Apply(w, a[0]), a[1..], b, v);
    }
  }

  lemma AttemptsUnroll(w: World, step: Step, rest: seq<Step>, v: VerifierId)
    ensures RunAttempts(w, [step] + rest, v) == AttemptsOf(w, step, v) + RunAttempts(Apply(w, step), rest, v)
  {
    assert ([step] + rest)[1..] == rest;
  }

  /** Calls from..n of verifier v have checked the old set and are about to refetch. */
  predicate AllRetrying(w: World, v: VerifierId, from: nat, n: nat) {
    forall c: nat :: from <= c < n ==> c in w.calls && w.calls[c].retrying && w.calls[c].verifier == v
  }

  /** Two more steps at the end of a run. */
  lemma AppendTwo(w: World, first: seq<Step>, a: Step, b: Step, v: VerifierId)
    ensures var w1 := Run(w, first);
      && Run(w, first + [a, b]) == Apply(Apply(w1, a), b)
      && RunAttempts(w, first + [a, b], v) == RunAttempts(w, first, v) + AttemptsOf(w1, a, v) + AttemptsOf(Apply(w1, a), b, v)
  {
    var w1 := Run(w, first);
    assert [a, b] == [a] + ([b] + []);
    Concat(w, first, [a, b], 0);
    Unroll(w1, a, [b] + [], 0);
    Unroll(Apply(w1, a), b, [], 0);
    AttemptsConcat(w, first, [a, b], v);
    AttemptsUnroll(w1, a, [b] + [], v);
    AttemptsUnroll(Apply(w1, a), b, [], v);
  }

  /** A bogus token over a set between the two ages is checked without a fetch, and its call goes on to refetch. */
  lemma ChecksWithoutFetch(w: World, v: VerifierId, c: CallId)
    requires CacheOf(w, v).Cached? && REFRESH <= w.now - CacheOf(w, v).fetchedAt < TTL && c !in w.calls
    ensures var w1 := Apply(w, Begin(c, v, Bogus().token, "")); var w2 := Apply(w1, First(c, 0, true));
      && w2 == w.(calls := w.calls[c := Call(v, Bogus().token, "", w.now, true)], caches := w2.caches)
      && CacheOf(w2, v) == CacheOf(w, v)
      && AttemptsOf(w, Begin(c, v, Bogus().token, ""), v) == [] && AttemptsOf(w1, First(c, 0, true), v) == []
  {
  }

  /** n bogus tokens at one instant, each checked against the same set before any of them refetches. */
  lemma {:induction false} AllCheckFirst(w: World, v: VerifierId, n: nat) returns (steps: seq<Step>)
    requires CacheOf(w, v).Cached? && REFRESH <= w.now - CacheOf(w, v).fetchedAt < TTL && forall c: nat :: c < n ==> c !in w.calls
    ensures var w' := Run(w, steps);
      && AllRetrying(w', v, 0, n) && w'.now == w.now && w'.replicas == w.replicas && CacheOf(w', v) == CacheOf(w, v)
      && (forall c: nat :: c >= n && c !in w.calls ==> c !in w'.calls)
    ensures RunAttempts(w, steps, v) == []
    decreases n
  {
    if n == 0 {
      steps := [];
    } else {
      var c: CallId := n - 1;
      var first := AllCheckFirst(w, v, c);
      ChecksWithoutFetch(Run(w, first), v, c);
      AppendTwo(w, first, Begin(c, v, Bogus().token, ""), First(c, 0, true), v);
      steps := first + [Begin(c, v, Bogus().token, ""), First(c, 0, true)];
    }
  }

  lemma {:induction false} AllRefetch(w: World, v: VerifierId, from: nat, n: nat) returns (steps: seq<Step>)
    requires w.replicas != [] && from <= n && AllRetrying(w, v, from, n)
    ensures |RunAttempts(w, steps, v)| == n - from
    ensures forall i :: 0 <= i < n - from ==> RunAttempts(w, steps, v)[i] == Attempt(w.now, true)
    decreases n - from
  {
    if from == n {
      steps := [];
    } else {
      var w1 := Apply(w, Second(from, 0, true));
      var rest := AllRefetch(w1, v, from + 1, n);
      steps := [Second(from, 0, true)] + rest;
      AttemptsUnroll(w, Second(from, 0, true), rest, v);
    }
  }

  /**
   Calls that overlap do not keep the rate although the issuer answers: a refetch
   never looks at the age again, so n calls that have checked the same set fetch n
   times at one instant.
   */
  lemma OverlappingCallsAllFetch(w: World, v: VerifierId, n: nat) returns (steps: seq<Step>)
    requires w.replicas != [] && CacheOf(w, v).Cached? && REFRESH <= w.now - CacheOf(w, v).fetchedAt < TTL
    requires forall c: nat :: c < n ==> c !in w.calls
    ensures |RunAttempts(w, steps, v)| == n
    ensures forall i :: 0 <= i < n ==> RunAttempts(w, steps, v)[i] == Attempt(w.now, true)
  {
    var first := AllCheckFirst(w, v, n);
    var second := AllRefetch(Run(w, first), v, 0, n);
    steps := first + second;
    AttemptsConcat(w, first, second, v);
  }
}
