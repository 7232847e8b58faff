/**
 Refresh-token rotation with reuse detection (internal/auth/service.go).

 A call to Refresh is several database statements; between them any number of
 other calls may run. The state machine below therefore has one step per
 statement or transaction, and keeps what an unfinished call has read in
 `calls`. A transaction commits as one step. Token ids are drawn in order, which
 stands for "random and never seen before".
 */
module RefreshTokens {
  import opened Options

  type UserId = nat
  type TokenId = nat
  type CallId = nat

  const REFRESH_TTL: nat := 7 * 24 * 3600

  /** A row of auth.refresh_tokens; `revoked` is "revoked_at IS NOT NULL". */
  datatype Token = Token(user: UserId, expires: int, revoked: bool, replacedBy: Option<TokenId>)

  datatype Exchange = Exchange(spent: TokenId, minted: TokenId)

  /** What an unfinished call holds in local variables. */
  datatype Call =
    | LoggingIn(user: UserId)                      // password and status passed
    | Unchecked(token: TokenId, user: UserId)      // row read live, user not read yet
    | Rotating(token: TokenId, user: UserId)       // user was active, transaction not committed
    | Reusing(user: UserId)                        // row read was rotated, family not revoked yet

  datatype Answer = Issued(token: TokenId) | InvalidCredentials | InvalidToken | UserFrozen

  datatype State = State(
    now: int,
    active: map<UserId, bool>,            // auth.users, reduced to status = 'active'
    tokens: seq<Token>,
    calls: map<CallId, Call>,
    answers: map<CallId, Answer>,         // history: how finished calls ended
    grants: seq<TokenId>,                 // history: tokens minted by Register and Login
    exchanges: seq<Exchange>)             // history: committed rotations

  datatype Step =
    | Tick(elapsed: nat)
    | SetActive(user: UserId, to: bool)
    | Register(user: UserId)
    | BeginLogin(call: CallId, user: UserId, passwordOk: bool)
    | CommitLogin(call: CallId)
    | ReadToken(call: CallId, token: TokenId)
    | ReadUser(call: CallId)
    | CommitRotation(call: CallId)
    | CommitFamilyRevocation(call: CallId)
    | Logout(token: TokenId)
    | Abandon(call: CallId)               // a database error or a lost connection

  // ---------------------------------------------------------------- SQL

  /** InsertRefreshToken, as newSession calls it. */
  function Insert(tokens: seq<Token>, user: UserId, now: int): seq<Token> {
    tokens + [Token(user, now + REFRESH_TTL, false, None)]
  }

  /** RevokeRefreshToken: "WHERE id = $1 AND revoked_at IS NULL". */
  function Revoke(tokens: seq<Token>, t: TokenId, replacedBy: Option<TokenId>): seq<Token> {
    if t < |tokens| && !tokens[t].revoked
    then tokens[t := tokens[t].(revoked := true, replacedBy := replacedBy)]
    else tokens
  }

  /** RevokeUserRefreshTokens: "WHERE user_id = $1 AND revoked_at IS NULL". */
  function RevokeFamily(tokens: seq<Token>, user: UserId): (r: seq<Token>)
    ensures |r| == |tokens|
    ensures forall i :: 0 <= i < |r| ==>
      r[i] == if tokens[i].user == user then tokens[i].(revoked := true) else tokens[i]
  {
    seq(|tokens|, i requires 0 <= i < |tokens| =>
      if tokens[i].user == user then tokens[i].(revoked := true) else tokens[i])
  }

  /** The two statements of a committed rotation. */
  function Rotate(tokens: seq<Token>, t: TokenId, user: UserId, now: int): seq<Token> {
    Revoke(Insert(tokens, user, now), t, Some(|tokens|))
  }

  // ---------------------------------------------------------------- steps

  function Finish(s: State, c: CallId, a: Answer): State {
    s.(calls := s.calls - {c}, answers := s.answers[c := a])
  }

  function Grant(s: State, user: UserId): State {
    s.(tokens := Insert(s.tokens, user, s.now), grants := s.grants + [|s.tokens|])
  }

  /** The decision Refresh takes on the row it read. */
  function AfterRead(s: State, c: CallId, t: TokenId): State {
    if t >= |s.tokens| then Finish(s, c, InvalidToken)
    else
      var row := s.tokens[t];
      if row.revoked then
        if row.replacedBy.Some? then s.(calls := s.calls[c := Reusing(row.user)])
        else Finish(s, c, InvalidToken)
      else if row.expires <= s.now then Finish(s, c, InvalidToken)
      else s.(calls := s.calls[c := Unchecked(t, row.user)])
  }

  /** The rotation transaction: insert, revoke the old row, roll back unless one row changed. */
  function AfterRotation(s: State, c: CallId, t: TokenId, user: UserId): State {
    if t < |s.tokens| && !s.tokens[t].revoked then
      Finish(s, c, Issued(|s.tokens|)).(
        tokens := Rotate(s.tokens, t, user, s.now),
        exchanges := s.exchanges + [Exchange(t, |s.tokens|)])
    else Finish(s, c, InvalidToken)
  }

  function Apply(s: State, step: Step): State {
    match step
    case Tick(d) => s.(now := s.now + d)
    case SetActive(u, to) => if u in s.active then s.(active := s.active[u := to]) else s
    case Register(u) => if u in s.active then s else Grant(s.(active := s.active[u := true]), u)
    case BeginLogin(c, u, ok) =>
      if c in s.calls then s
      else if u !in s.active || !ok then Finish(s, c, InvalidCredentials)
      else if s.active[u] then s.(calls := s.calls[c := LoggingIn(u)])
      else Finish(s, c, UserFrozen)
    case CommitLogin(c) =>
      if c in s.calls && s.calls[c].LoggingIn?
      then Finish(Grant(s, s.calls[c].user), c, Issued(|s.tokens|)) else s
    case ReadToken(c, t) => if c in s.calls then s else AfterRead(s, c, t)
    case ReadUser(c) =>
      if c in s.calls && s.calls[c].Unchecked? && s.calls[c].user in s.active then
        var k := s.calls[c];
        if s.active[k.user] then s.(calls := s.calls[c := Rotating(k.token, k.user)])
        else Finish(s, c, UserFrozen)
      else s
    case CommitRotation(c) =>
      if c in s.calls && s.calls[c].Rotating?
      then AfterRotation(s, c, s.calls[c].token, s.calls[c].user) else s
    case CommitFamilyRevocation(c) =>
      if c in s.calls && s.calls[c].Reusing?
      then Finish(s, c, InvalidToken).(tokens := RevokeFamily(s.tokens, s.calls[c].user)) else s
    case Logout(t) => s.(tokens := Revoke(s.tokens, t, None))
    case Abandon(c) => s.(calls := s.calls - {c})
  }

  function Run(s: State, steps: seq<Step>): State
    decreases |steps|
  {
    if steps == [] then s else Run(Apply(s, steps[0]), steps[1..])
  }

  // ---------------------------------------------------------------- lineage

  /** Every link points forward to a token of the same user and leaves a revoked token. */
  ghost predicate LinksForward(tokens: seq<Token>) {
    forall i :: 0 <= i < |tokens| && tokens[i].replacedBy.Some? ==>
      && tokens[i].revoked
      && i < tokens[i].replacedBy.value < |tokens|
      && tokens[tokens[i].replacedBy.value].user == tokens[i].user
  }

  /** No token has two predecessors. */
  ghost predicate LinksInjective(tokens: seq<Token>) {
    forall i, j :: 0 <= i < j < |tokens| && tokens[i].replacedBy.Some? ==>
      tokens[i].replacedBy != tokens[j].replacedBy
  }

  ghost predicate HasPredecessor(tokens: seq<Token>, j: TokenId) {
    exists i :: 0 <= i < |tokens| && tokens[i].replacedBy == Some(j)
  }

  /** The tokens without a predecessor are exactly the ones Register and Login minted. */
  ghost predicate HeadsAreGrants(tokens: seq<Token>, grants: seq<TokenId>) {
    && (forall k :: 0 <= k < |grants| ==> grants[k] < |tokens|)
    && (forall j :: 0 <= j < |tokens| ==> (j in grants <==> !HasPredecessor(tokens, j)))
  }

  /** The links are the history of committed rotations, each spent token once. */
  ghost predicate LinksAreExchanges(tokens: seq<Token>, exchanges: seq<Exchange>) {
    && (forall k :: 0 <= k < |exchanges| ==>
        exchanges[k].spent < |tokens| && tokens[exchanges[k].spent].replacedBy == Some(exchanges[k].minted))
    && (forall i :: 0 <= i < |tokens| && tokens[i].replacedBy.Some? ==>
        Exchange(i, tokens[i].replacedBy.value) in exchanges)
    && (forall k, l :: 0 <= k < l < |exchanges| ==> exchanges[k].spent != exchanges[l].spent)
  }

  ghost predicate Lineage(tokens: seq<Token>, grants: seq<TokenId>, exchanges: seq<Exchange>) {
    && LinksForward(tokens)
    && LinksInjective(tokens)
    && HeadsAreGrants(tokens, grants)
    && LinksAreExchanges(tokens, exchanges)
  }

  /** What unfinished calls remember about rows is about columns that cannot change. */
  ghost predicate CallsSound(calls: map<CallId, Call>, tokens: seq<Token>) {
    forall c :: c in calls && (calls[c].Unchecked? || calls[c].Rotating?) ==>
      calls[c].token < |tokens| && tokens[calls[c].token].user == calls[c].user
  }

  ghost predicate Inv(s: State) {
    Lineage(s.tokens, s.grants, s.exchanges) && CallsSound(s.calls, s.tokens)
  }

  ghost predicate Init(s: State) {
    s.tokens == [] && s.calls == map[] && s.grants == [] && s.exchanges == []
  }

  /** Rows of b are rows of a, possibly revoked since, and possibly followed by new ones. */
  ghost predicate Extends(a: seq<Token>, b: seq<Token>) {
    && |a| <= |b|
    && forall i :: 0 <= i < |a| ==>
        && b[i].user == a[i].user && b[i].expires == a[i].expires
        && (a[i].revoked ==> b[i] == a[i])
  }

  /** Revoking rows without touching their links keeps the lineage. */
  lemma SameLinks(a: seq<Token>, b: seq<Token>, grants: seq<TokenId>, exchanges: seq<Exchange>)
    requires Lineage(a, grants, exchanges)
    requires Extends(a, b) && |a| == |b|
    requires forall i :: 0 <= i < |b| ==> b[i].replacedBy == a[i].replacedBy
    ensures Lineage(b, grants, exchanges)
  {
    forall j | 0 <= j < |b| ensures HasPredecessor(b, j) <==> HasPredecessor(a, j) {
      if HasPredecessor(b, j) {
        var i :| 0 <= i < |b| && b[i].replacedBy == Some(j);
        assert a[i].replacedBy == Some(j);
      }
      if HasPredecessor(a, j) {
        var i :| 0 <= i < |a| && a[i].replacedBy == Some(j);
        assert b[i].replacedBy == Some(j);
      }
    }
  }

  /** A new token without predecessor, recorded as a grant. */
  lemma InsertKeepsLineage(a: seq<Token>, user: UserId, now: int, grants: seq<TokenId>, exchanges: seq<Exchange>)
    requires Lineage(a, grants, exchanges)
    ensures Lineage(Insert(a, user, now), grants + [|a|], exchanges)
  {
    var b := Insert(a, user, now);
    assert forall i :: 0 <= i < |a| ==> b[i] == a[i];
    assert (grants + [|a|])[|grants|] == |a|;
    forall j | 0 <= j < |b| ensures HasPredecessor(b, j) <==> j < |a| && HasPredecessor(a, j) {
      if HasPredecessor(a, j) {
        var i :| 0 <= i < |a| && a[i].replacedBy == Some(j);
        assert b[i].replacedBy == Some(j);
      }
    }
  }

  /** After a rotation the predecessors are those of before and, for the new token, the spent one. */
  lemma PredecessorsAfterRotation(a: seq<Token>, t: TokenId, now: int)
    requires LinksForward(a) && t < |a| && !a[t].revoked
    ensures var b := Rotate(a, t, a[t].user, now);
      forall j :: 0 <= j < |b| ==> (HasPredecessor(b, j) <==> j == |a| || HasPredecessor(a, j))
  {
    var b := Rotate(a, t, a[t].user, now);
    assert a[t].replacedBy == None;
    assert b[t].replacedBy == Some(|a|);
    assert forall i :: 0 <= i < |a| && i != t ==> b[i] == a[i];
    forall j | 0 <= j < |b| ensures HasPredecessor(b, j) <==> j == |a| || HasPredecessor(a, j) {
      if HasPredecessor(a, j) {
        var i :| 0 <= i < |a| && a[i].replacedBy == Some(j);
        assert b[i].replacedBy == Some(j);
      }
    }
  }

  lemma RotateKeepsLineage(a: seq<Token>, t: TokenId, now: int, grants: seq<TokenId>, exchanges: seq<Exchange>)
    requires Lineage(a, grants, exchanges)
    requires t < |a| && !a[t].revoked
    ensures Lineage(Rotate(a, t, a[t].user, now), grants, exchanges + [Exchange(t, |a|)])
  {
    var b := Rotate(a, t, a[t].user, now);
    assert a[t].replacedBy == None;
    assert forall i :: 0 <= i < |a| && i != t ==> b[i] == a[i];
    PredecessorsAfterRotation(a, t, now);
    assert HeadsAreGrants(b, grants);
    var e := exchanges + [Exchange(t, |a|)];
    assert e[|exchanges|] == Exchange(t, |a|);
    forall i | 0 <= i < |b| && b[i].replacedBy.Some? ensures Exchange(i, b[i].replacedBy.value) in e {
      if i != t { assert Exchange(i, a[i].replacedBy.value) in exchanges; }
    }
  }

  /** Rows only ever gain a revocation: users, expiry and the links of revoked rows are final. */
  lemma StepExtends(s: State, step: Step)
    ensures Extends(s.tokens, Apply(s, step).tokens)
  {
  }

  ghost predicate LineageOf(s: State) {
    Lineage(s.tokens, s.grants, s.exchanges)
  }

  lemma RegisterKeepsLineage(s: State, u: UserId)
    requires LineageOf(s)
    ensures LineageOf(Apply(s, Register(u)))
  {
    if u !in s.active { InsertKeepsLineage(s.tokens, u, s.now, s.grants, s.exchanges); }
  }

  lemma LoginKeepsLineage(s: State, c: CallId)
    requires LineageOf(s)
    ensures LineageOf(Apply(s, CommitLogin(c)))
  {
    if c in s.calls { InsertKeepsLineage(s.tokens, s.calls[c].user, s.now, s.grants, s.exchanges); }
  }

  lemma RotationKeepsLineage(s: State, c: CallId)
    requires LineageOf(s) && CallsSound(s.calls, s.tokens)
    ensures LineageOf(Apply(s, CommitRotation(c)))
  {
    if c in s.calls && s.calls[c].Rotating? && !s.tokens[s.calls[c].token].revoked {
      RotateKeepsLineage(s.tokens, s.calls[c].token, s.now, s.grants, s.exchanges);
    }
  }

  lemma FamilyRevocationKeepsLineage(s: State, c: CallId)
    requires LineageOf(s)
    ensures LineageOf(Apply(s, CommitFamilyRevocation(c)))
  {
    if c in s.calls && s.calls[c].Reusing? {
      SameLinks(s.tokens, RevokeFamily(s.tokens, s.calls[c].user), s.grants, s.exchanges);
    }
  }

  lemma LogoutKeepsLineage(s: State, t: TokenId)
    requires LineageOf(s)
    ensures LineageOf(Apply(s, Logout(t)))
  {
    SameLinks(s.tokens, Revoke(s.tokens, t, None), s.grants, s.exchanges);
  }

  predicate Writes(step: Step) {
    step.Register? || step.CommitLogin? || step.CommitRotation? || step.CommitFamilyRevocation? || step.Logout?
  }

  lemma OthersOnlyRead(s: State, step: Step)
    requires !Writes(step)
    ensures var s' := Apply(s, step); s'.tokens == s.tokens && s'.grants == s.grants && s'.exchanges == s.exchanges
  {
  }

  lemma StepKeepsLineage(s: State, step: Step)
    requires LineageOf(s) && CallsSound(s.calls, s.tokens)
    ensures LineageOf(Apply(s, step))
  {
    if Writes(step) {
      match step
      case Register(u) => RegisterKeepsLineage(s, u);
      case CommitLogin(c) => LoginKeepsLineage(s, c);
      case CommitRotation(c) => RotationKeepsLineage(s, c);
      case CommitFamilyRevocation(c) => FamilyRevocationKeepsLineage(s, c);
      case Logout(t) => LogoutKeepsLineage(s, t);
    } else {
      OthersOnlyRead(s, step);
    }
  }

  /** What a step leaves in `calls` is sound for the rows as they were before it. */
  lemma StepCallsSound(s: State, step: Step)
    requires CallsSound(s.calls, s.tokens)
    ensures CallsSound(Apply(s, step).calls, s.tokens)
  {
    match step
    case CommitRotation(c) =>
      assert forall x :: x in Apply(s, step).calls ==> x in s.calls && Apply(s, step).calls[x] == s.calls[x];
    case CommitFamilyRevocation(c) =>
      assert forall x :: x in Apply(s, step).calls ==> x in s.calls && Apply(s, step).calls[x] == s.calls[x];
    case _ =>
  }

  /** A call's memory stays sound whatever the other calls commit. */
  lemma SoundAfter(calls: map<CallId, Call>, a: seq<Token>, b: seq<Token>)
    requires CallsSound(calls, a) && Extends(a, b)
    ensures CallsSound(calls, b)
  {
  }

  /** Every step of every call keeps the lineage of all tokens intact. */
  lemma StepKeepsInv(s: State, step: Step)
    requires Inv(s)
    ensures Inv(Apply(s, step)) && Extends(s.tokens, Apply(s, step).tokens)
  {
    StepKeepsLineage(s, step);
    StepExtends(s, step);
    StepCallsSound(s, step);
    SoundAfter(Apply(s, step).calls, s.tokens, Apply(s, step).tokens);
  }

  lemma {:induction false} RunKeepsInv(s: State, steps: seq<Step>)
    requires Inv(s)
    ensures Inv(Run(s, steps)) && Extends(s.tokens, Run(s, steps).tokens)
    decreases |steps|
  {
    if steps != [] {
      StepKeepsInv(s, steps[0]);
      RunKeepsInv(Apply(s, steps[0]), steps[1..]);
    }
  }

  // ---------------------------------------------------------------- chains

  /** The tokens reached from t by following replaced_by. */
  ghost function Chain(tokens: seq<Token>, t: TokenId): seq<TokenId>
    requires LinksForward(tokens) && t < |tokens|
    decreases |tokens| - t
  {
    match tokens[t].replacedBy
    case None => [t]
    case Some(n) => [t] + Chain(tokens, n)
  }

  /** Walking a chain visits ever larger ids of one user, and only its last token can be unrevoked. */
  lemma {:induction false} ChainShape(tokens: seq<Token>, t: TokenId)
    requires LinksForward(tokens) && t < |tokens|
    ensures forall x :: x in Chain(tokens, t) ==> t <= x < |tokens| && tokens[x].user == tokens[t].user
    ensures forall k :: 0 <= k < |Chain(tokens, t)| - 1 ==>
      Chain(tokens, t)[k] < |tokens| && tokens[Chain(tokens, t)[k]].revoked
    decreases |tokens| - t
  {
    if tokens[t].replacedBy.Some? {
      ChainShape(tokens, tokens[t].replacedBy.value);
    }
  }

  /** If y is on the chain of x, the chain of y is its tail. */
  lemma {:induction false} ChainSuffix(tokens: seq<Token>, x: TokenId, y: TokenId)
    requires LinksForward(tokens) && x < |tokens| && y in Chain(tokens, x)
    ensures y < |tokens|
    ensures y != x ==> tokens[x].replacedBy.Some? && y in Chain(tokens, tokens[x].replacedBy.value)
    ensures forall z :: z in Chain(tokens, y) ==> z in Chain(tokens, x)
    decreases |tokens| - x
  {
    ChainShape(tokens, x);
    if y != x { ChainSuffix(tokens, tokens[x].replacedBy.value, y); }
  }

  lemma {:induction false} ChainStep(tokens: seq<Token>, x: TokenId, y: TokenId)
    requires LinksForward(tokens) && x < |tokens| && y in Chain(tokens, x)
    requires y < |tokens| && tokens[y].replacedBy.Some?
    ensures tokens[y].replacedBy.value in Chain(tokens, x)
    decreases |tokens| - x
  {
    if y != x {
      ChainSuffix(tokens, x, y);
      ChainStep(tokens, tokens[x].replacedBy.value, y);
    } else {
      assert tokens[y].replacedBy.value in Chain(tokens, tokens[y].replacedBy.value);
    }
  }

  /** Every token descends from a login or a registration of its user. */
  lemma {:induction false} GrantOf(s: State, t: TokenId) returns (g: TokenId)
    requires Inv(s) && t < |s.tokens|
    ensures g in s.grants && g < |s.tokens| && s.tokens[g].user == s.tokens[t].user
    ensures t in Chain(s.tokens, g)
    decreases t
  {
    if t in s.grants {
      g := t;
    } else {
      assert HasPredecessor(s.tokens, t);
      var i :| 0 <= i < |s.tokens| && s.tokens[i].replacedBy == Some(t);
      g := GrantOf(s, i);
      ChainStep(s.tokens, g, i);
    }
  }

  /** A token reached from x is x itself or has its predecessor on the same chain. */
  lemma {:induction false} PredecessorOnChain(tokens: seq<Token>, x: TokenId, y: TokenId) returns (p: TokenId)
    requires LinksForward(tokens) && x < |tokens| && y in Chain(tokens, x) && y != x
    ensures p < |tokens| && p in Chain(tokens, x) && tokens[p].replacedBy == Some(y)
    decreases |tokens| - x
  {
    ChainSuffix(tokens, x, y);
    var n := tokens[x].replacedBy.value;
    if y == n { p := x; } else { p := PredecessorOnChain(tokens, n, y); }
  }

  lemma GrantIsHead(s: State, g: TokenId)
    requires Inv(s) && g in s.grants && g < |s.tokens|
    ensures forall i :: 0 <= i < |s.tokens| ==> s.tokens[i].replacedBy != Some(g)
  {
    assert !HasPredecessor(s.tokens, g);
  }

  /** The chains of two different grants share no token. */
  lemma {:induction false} ChainsDisjoint(s: State, g: TokenId, h: TokenId, t: TokenId)
    requires Inv(s) && g in s.grants && h in s.grants && g < |s.tokens| && h < |s.tokens|
    requires t in Chain(s.tokens, g) && t in Chain(s.tokens, h)
    ensures g == h
    decreases t
  {
    ChainShape(s.tokens, g);
    ChainShape(s.tokens, h);
    GrantIsHead(s, g);
    GrantIsHead(s, h);
    if t == g && t != h {
      var p := PredecessorOnChain(s.tokens, h, t);
      assert false;
    } else if t == h && t != g {
      var p := PredecessorOnChain(s.tokens, g, t);
      assert false;
    } else if t != g {
      var p := PredecessorOnChain(s.tokens, g, t);
      var q := PredecessorOnChain(s.tokens, h, t);
      assert p == q;
      ChainsDisjoint(s, g, h, p);
    }
  }

  /** A chain holds at most one unrevoked token. */
  lemma {:induction false} OneLivePerChain(tokens: seq<Token>, g: TokenId, x: TokenId, y: TokenId)
    requires LinksForward(tokens) && g < |tokens| && x in Chain(tokens, g) && y in Chain(tokens, g)
    requires x < |tokens| && !tokens[x].revoked && y < |tokens| && !tokens[y].revoked
    ensures x == y
  {
    ChainShape(tokens, g);
    var c := Chain(tokens, g);
    assert forall k :: 0 <= k < |c| - 1 ==> tokens[c[k]].revoked;
  }

  ghost function LiveOf(s: State, user: UserId): set<TokenId> {
    set i | 0 <= i < |s.tokens| && s.tokens[i].user == user && !s.tokens[i].revoked
  }

  ghost function GrantsOf(s: State, user: UserId): set<TokenId> {
    set g | g in s.grants && g < |s.tokens| && s.tokens[g].user == user
  }

  /** Distinct live tokens have distinct grants, so there are no more of them. */
  lemma {:induction false} LiveWithinGrants(s: State, live: set<TokenId>, grants: set<TokenId>)
    requires Inv(s)
    requires forall t :: t in live ==> t < |s.tokens| && !s.tokens[t].revoked
    requires forall t, g :: (t in live && g in s.grants && g < |s.tokens| && t in Chain(s.tokens, g) &&
      s.tokens[g].user == s.tokens[t].user) ==> g in grants
    ensures |live| <= |grants|
    decreases |live|
  {
    if live != {} {
      var t :| t in live;
      var g := GrantOf(s, t);
      forall x, h | x in live - {t} && h in s.grants && h < |s.tokens| && x in Chain(s.tokens, h) &&
          s.tokens[h].user == s.tokens[x].user
        ensures h in grants - {g}
      {
        if h == g { OneLivePerChain(s.tokens, g, t, x); }
      }
      LiveWithinGrants(s, live - {t}, grants - {g});
    }
  }

  ghost predicate OnOneChain(s: State, t: TokenId)
    requires LinksForward(s.tokens)
  {
    exists g :: g in s.grants && g < |s.tokens| && t in Chain(s.tokens, g) &&
      (forall h :: h in s.grants && h < |s.tokens| && t in Chain(s.tokens, h) ==> h == g)
  }

  lemma IsOnOneChain(s: State, t: TokenId)
    requires Inv(s) && t < |s.tokens|
    ensures OnOneChain(s, t)
  {
    var g := GrantOf(s, t);
    forall h | h in s.grants && h < |s.tokens| && t in Chain(s.tokens, h) ensures h == g {
      ChainsDisjoint(s, g, h, t);
    }
  }

  /** Of the chain of g only the last token can be unrevoked. */
  ghost predicate OnlyLastLives(tokens: seq<Token>, g: TokenId)
    requires LinksForward(tokens) && g < |tokens|
  {
    var chain := Chain(tokens, g);
    forall x :: x in chain && x < |tokens| && !tokens[x].revoked ==> x == chain[|chain| - 1]
  }

  lemma LastLives(tokens: seq<Token>, g: TokenId)
    requires LinksForward(tokens) && g < |tokens|
    ensures OnlyLastLives(tokens, g)
  {
    ChainShape(tokens, g);
  }

  lemma LiveBounded(s: State, user: UserId)
    requires Inv(s)
    ensures |LiveOf(s, user)| <= |GrantsOf(s, user)|
  {
    LiveWithinGrants(s, LiveOf(s, user), GrantsOf(s, user));
  }

  /** No token is spent twice or minted twice. */
  ghost predicate ExchangedOnce(exchanges: seq<Exchange>) {
    forall k, l :: 0 <= k < l < |exchanges| ==>
      exchanges[k].spent != exchanges[l].spent && exchanges[k].minted != exchanges[l].minted
  }

  lemma InvExchangedOnce(s: State)
    requires Inv(s)
    ensures ExchangedOnce(s.exchanges)
  {
  }

  lemma GrantsExist(s: State, g: TokenId)
    requires Inv(s) && g in s.grants
    ensures g < |s.tokens|
  {
  }

  /**
   The lineage theorem: whatever calls interleave, no token is exchanged twice,
   every token lies on the chain of exactly one login or registration, a chain
   has at most one live token and that token ends it, and a user never has more
   live tokens than logins and registrations.
   */
  lemma EveryRunKeepsTheLineage(s0: State, steps: seq<Step>, user: UserId)
    requires Init(s0)
    ensures var s := Run(s0, steps);
      && Inv(s)
      && |LiveOf(s, user)| <= |GrantsOf(s, user)|
      && ExchangedOnce(s.exchanges)
      && (forall t: TokenId :: t < |s.tokens| ==> OnOneChain(s, t))
      && (forall g :: g in s.grants ==> g < |s.tokens| && OnlyLastLives(s.tokens, g))
  {
    RunKeepsInv(s0, steps);
    var s := Run(s0, steps);
    LiveBounded(s, user);
    InvExchangedOnce(s);
    forall t: TokenId | t < |s.tokens| ensures OnOneChain(s, t) {
      IsOnOneChain(s, t);
    }
    forall g | g in s.grants ensures g < |s.tokens| && OnlyLastLives(s.tokens, g) {
      GrantsExist(s, g);
      LastLives(s.tokens, g);
    }
  }

  // ---------------------------------------------------------------- reuse detection

  predicate Spent(s: State, t: TokenId) {
    exists k :: 0 <= k < |s.exchanges| && s.exchanges[k].spent == t
  }

  /** A call that reads a token turns against its family exactly when the token was exchanged before the read. */
  lemma ReadDetectsReuse(s: State, c: CallId, t: TokenId)
    requires Inv(s) && c !in s.calls
    ensures var s' := Apply(s, ReadToken(c, t));
      (c in s'.calls && s'.calls[c].Reusing?) <==> Spent(s, t)
    ensures Spent(s, t) ==> Apply(s, ReadToken(c, t)).calls[c] == Reusing(s.tokens[t].user)
  {
    if t < |s.tokens| && s.tokens[t].replacedBy.Some? {
      assert Exchange(t, s.tokens[t].replacedBy.value) in s.exchanges;
    }
  }

  /** An exchanged token stays exchanged, so presenting it again is detected however much later. */
  lemma PresentedAgain(s: State, steps: seq<Step>, c: CallId, t: TokenId)
    requires Inv(s) && Spent(s, t) && c !in Run(s, steps).calls
    ensures t < |s.tokens|
    ensures var s' := Apply(Run(s, steps), ReadToken(c, t));
      c in s'.calls && s'.calls[c] == Reusing(s.tokens[t].user)
  {
    RunKeepsInv(s, steps);
    assert s.tokens[t].revoked;
  }

  /** A call that read its token before someone else exchanged it is refused and changes no row. */
  lemma LostRace(s: State, c: CallId)
    requires Inv(s) && c in s.calls && s.calls[c].Rotating? && Spent(s, s.calls[c].token)
    ensures var s' := Apply(s, CommitRotation(c));
      && s'.answers[c] == InvalidToken
      && s'.tokens == s.tokens && s'.exchanges == s.exchanges && s'.grants == s.grants
  {
    assert s.tokens[s.calls[c].token].replacedBy.Some?;
  }

  /** The exchanges committed between s and s2 spent no token of the user. */
  ghost predicate NoExchangeFor(s: State, s2: State, user: UserId) {
    && s.exchanges <= s2.exchanges
    && forall k :: |s.exchanges| <= k < |s2.exchanges| ==>
        s2.exchanges[k].spent < |s2.tokens| && s2.tokens[s2.exchanges[k].spent].user != user
  }

  /** How a step may add a token: not at all, as a grant, or as the successor of a live token of the same user. */
  ghost predicate Appends(s: State, s2: State) {
    var n := |s.tokens|;
    || (|s2.tokens| == n && s2.grants == s.grants && s2.exchanges == s.exchanges)
    || (|s2.tokens| == n + 1 && s2.grants == s.grants + [n] && s2.exchanges == s.exchanges)
    || (&& |s2.tokens| == n + 1 && s2.grants == s.grants
        && |s2.exchanges| == |s.exchanges| + 1 && s2.exchanges[..|s.exchanges|] == s.exchanges
        && s2.exchanges[|s.exchanges|].spent < n
        && !s.tokens[s2.exchanges[|s.exchanges|].spent].revoked
        && s.tokens[s2.exchanges[|s.exchanges|].spent].user == s2.tokens[n].user)
  }

  lemma StepAppends(s: State, step: Step)
    requires CallsSound(s.calls, s.tokens)
    ensures Appends(s, Apply(s, step))
  {
    match step
    case CommitRotation(c) =>
      if c in s.calls && s.calls[c].Rotating? {
        var k := s.calls[c];
        assert k.token < |s.tokens| && s.tokens[k.token].user == k.user;
      }
    case _ =>
  }

  /** Without a grant, a user without live tokens gets none. */
  lemma NoGrantNoLife(s: State, s2: State, user: UserId)
    requires LiveOf(s, user) == {} && Extends(s.tokens, s2.tokens) && Appends(s, s2)
    requires GrantsOf(s2, user) == GrantsOf(s, user)
    ensures LiveOf(s2, user) == {} && NoExchangeFor(s, s2, user)
  {
    var n := |s.tokens|;
    assert forall i :: 0 <= i < n && s.tokens[i].user == user && !s.tokens[i].revoked ==> i in LiveOf(s, user);
    assert n !in GrantsOf(s2, user);
    assert s2.grants == s.grants + [n] ==> s2.grants[|s2.grants| - 1] == n;
    assert s2.grants == s.grants + [n] && |s2.tokens| == n + 1 ==> s2.tokens[n].user != user;
  }

  lemma GrantsOnlyGrow(s: State, s2: State, user: UserId)
    requires Extends(s.tokens, s2.tokens) && Appends(s, s2)
    ensures GrantsOf(s, user) <= GrantsOf(s2, user)
    ensures s.exchanges <= s2.exchanges
  {
  }

  lemma {:induction false} RunGrantsGrow(s: State, steps: seq<Step>, user: UserId)
    requires Inv(s)
    ensures GrantsOf(s, user) <= GrantsOf(Run(s, steps), user)
    ensures s.exchanges <= Run(s, steps).exchanges
    decreases |steps|
  {
    if steps != [] {
      var s1 := Apply(s, steps[0]);
      StepKeepsInv(s, steps[0]);
      StepAppends(s, steps[0]);
      GrantsOnlyGrow(s, s1, user);
      RunGrantsGrow(s1, steps[1..], user);
    }
  }

  lemma {:induction false} RunWithoutGrant(s: State, steps: seq<Step>, user: UserId)
    requires Inv(s) && LiveOf(s, user) == {}
    requires GrantsOf(Run(s, steps), user) == GrantsOf(s, user)
    ensures LiveOf(Run(s, steps), user) == {} && NoExchangeFor(s, Run(s, steps), user)
    decreases |steps|
  {
    if steps != [] {
      var s1 := Apply(s, steps[0]);
      StepKeepsInv(s, steps[0]);
      StepAppends(s, steps[0]);
      GrantsOnlyGrow(s, s1, user);
      RunGrantsGrow(s1, steps[1..], user);
      NoGrantNoLife(s, s1, user);
      RunWithoutGrant(s1, steps[1..], user);
      RunKeepsInv(s1, steps[1..]);
      NoExchangeTransitive(s, s1, Run(s1, steps[1..]), user);
    }
  }

  lemma NoExchangeTransitive(s: State, s1: State, s2: State, user: UserId)
    requires NoExchangeFor(s, s1, user) && NoExchangeFor(s1, s2, user) && Extends(s1.tokens, s2.tokens)
    ensures NoExchangeFor(s, s2, user)
  {
    forall k | |s.exchanges| <= k < |s2.exchanges|
      ensures s2.exchanges[k].spent < |s2.tokens| && s2.tokens[s2.exchanges[k].spent].user != user
    {
      if k < |s1.exchanges| { assert s2.exchanges[k] == s1.exchanges[k]; }
    }
  }

  /**
   The reuse theorem: once a call that saw a rotated token has revoked the
   family, the user has no live token and exchanges none until the next login or
   registration commits, even though calls that read their rows earlier are still
   under way and commit later.
   */
  lemma ReuseEndsTheFamily(s: State, c: CallId, rest: seq<Step>)
    requires Inv(s) && c in s.calls && s.calls[c].Reusing?
    ensures var user := s.calls[c].user;
      var s1 := Apply(s, CommitFamilyRevocation(c));
      && LiveOf(s1, user) == {}
      && (GrantsOf(Run(s1, rest), user) == GrantsOf(s1, user) ==>
          LiveOf(Run(s1, rest), user) == {} && NoExchangeFor(s1, Run(s1, rest), user))
  {
    var user := s.calls[c].user;
    var s1 := Apply(s, CommitFamilyRevocation(c));
    StepKeepsInv(s, CommitFamilyRevocation(c));
    if GrantsOf(Run(s1, rest), user) == GrantsOf(s1, user) { RunWithoutGrant(s1, rest, user); }
  }

  // ---------------------------------------------------------------- logout

  lemma {:induction false} RevokedIsNeverExchanged(s: State, steps: seq<Step>, t: TokenId)
    requires Inv(s) && t < |s.tokens| && s.tokens[t].revoked
    ensures var s' := Run(s, steps);
      && s.exchanges <= s'.exchanges && t < |s'.tokens| && s'.tokens[t] == s.tokens[t]
      && forall k :: |s.exchanges| <= k < |s'.exchanges| ==> s'.exchanges[k].spent != t
    decreases |steps|
  {
    if steps != [] {
      var s1 := Apply(s, steps[0]);
      StepKeepsInv(s, steps[0]);
      StepAppends(s, steps[0]);
      RevokedIsNeverExchanged(s1, steps[1..], t);
      assert forall k :: |s.exchanges| <= k < |s1.exchanges| ==> s1.exchanges[k].spent != t;
    }
  }

  /** The row after a logout: revoked, without a successor of its own, and nothing else touched. */
  lemma LogoutRevokes(s: State, t: TokenId)
    requires Inv(s) && t < |s.tokens|
    ensures var s1 := Apply(s, Logout(t));
      && |s1.tokens| == |s.tokens| && s1.tokens[t].revoked
      && s1.tokens[t].replacedBy == (if s.tokens[t].revoked then s.tokens[t].replacedBy else None)
      && forall i :: 0 <= i < |s.tokens| && i != t ==> s1.tokens[i] == s.tokens[i]
  {
  }

  /**
   A token that has been logged out is spent for good: over every later run no
   exchange of it commits, not even by calls that had read it before, and a call
   that reads it gets no further than to be refused or to detect an earlier reuse.
   */
  lemma LoggedOutForGood(s: State, t: TokenId, steps: seq<Step>, c: CallId)
    requires Inv(s) && t < |s.tokens|
    ensures var s1 := Apply(s, Logout(t)); var s2 := Run(s1, steps);
      && |s1.exchanges| <= |s2.exchanges|
      && (forall k :: |s1.exchanges| <= k < |s2.exchanges| ==> s2.exchanges[k].spent != t)
      && (c !in s2.calls ==>
          var s3 := Apply(s2, ReadToken(c, t));
          && (s.tokens[t].replacedBy.None? ==> c !in s3.calls && s3.answers == s2.answers[c := InvalidToken])
          && (c in s3.calls ==> s3.calls[c].Reusing?))
  {
    StepKeepsInv(s, Logout(t));
    LogoutRevokes(s, t);
    RevokedIsNeverExchanged(Apply(s, Logout(t)), steps, t);
  }

  // ---------------------------------------------------------------- who is let in

  /** Only a registration or a login mints, and only the right password of an active user gets a login that far. */
  lemma GrantsAreEarned(s: State, step: Step)
    ensures var s' := Apply(s, step);
      && (s'.grants != s.grants ==>
          || (step.Register? && step.user !in s.active)
          || (step.CommitLogin? && step.call in s.calls && s.calls[step.call].LoggingIn?))
      && (forall c :: c in s'.calls && s'.calls[c].LoggingIn? && !(c in s.calls && s.calls[c] == s'.calls[c]) ==>
          step == BeginLogin(c, s'.calls[c].user, true) && s'.calls[c].user in s.active && s.active[s'.calls[c].user])
  {
  }

  /** A login call gets to its transaction exactly with the right password of an active user. */
  lemma LoginNeedsPassword(s: State, c: CallId, user: UserId, passwordOk: bool)
    requires c !in s.calls
    ensures var s' := Apply(s, BeginLogin(c, user, passwordOk));
      && (c in s'.calls <==> passwordOk && user in s.active && s.active[user])
      && (c in s'.calls ==> s'.calls[c] == LoggingIn(user))
      && s'.tokens == s.tokens && s'.grants == s.grants
  {
  }

  /** A frozen user stays frozen until released, however the calls interleave. */
  lemma {:induction false} FrozenStaysFrozen(s: State, user: UserId, steps: seq<Step>)
    requires user in s.active && !s.active[user]
    requires forall i :: 0 <= i < |steps| ==> steps[i] != SetActive(user, true)
    ensures user in Run(s, steps).active && !Run(s, steps).active[user]
    decreases |steps|
  {
    if steps != [] { FrozenStaysFrozen(Apply(s, steps[0]), user, steps[1..]); }
  }

  /** From the moment a freeze commits until a release, every login and every status check of the user is refused as frozen. */
  lemma FreezeRefuses(s: State, user: UserId, steps: seq<Step>, c: CallId)
    requires user in s.active && forall i :: 0 <= i < |steps| ==> steps[i] != SetActive(user, true)
    ensures var s' := Run(Apply(s, SetActive(user, false)), steps);
      && (c !in s'.calls ==> Apply(s', BeginLogin(c, user, true)) == s'.(answers := s'.answers[c := UserFrozen]))
      && (c in s'.calls && s'.calls[c].Unchecked? && s'.calls[c].user == user ==>
          Apply(s', ReadUser(c)) == s'.(calls := s'.calls - {c}, answers := s'.answers[c := UserFrozen]))
  {
    FrozenStaysFrozen(Apply(s, SetActive(user, false)), user, steps);
    var s' := Run(Apply(s, SetActive(user, false)), steps);
    assert c !in s'.calls ==> s'.calls - {c} == s'.calls;
  }

  // ---------------------------------------------------------------- one call, uninterrupted

  /** Steps that do not fit the call's progress do nothing, so this is any whole call. */
  function RefreshSteps(c: CallId, t: TokenId): seq<Step> {
    [ReadToken(c, t), CommitFamilyRevocation(c), ReadUser(c), CommitRotation(c)]
  }

  /** Foreign keys: every token, and every call, names a user that exists. */
  ghost predicate UsersExist(s: State) {
    && (forall i :: 0 <= i < |s.tokens| ==> s.tokens[i].user in s.active)
    && (forall c :: c in s.calls ==> s.calls[c].user in s.active)
  }

  /** Run, one step at a time. */
  lemma RunStep(s: State, step: Step, rest: seq<Step>)
    ensures Run(s, [step] + rest) == Run(Apply(s, step), rest)
  {
    assert ([step] + rest)[1..] == rest;
  }

  lemma RefreshRun(s: State, c: CallId, t: TokenId)
    ensures Run(s, RefreshSteps(c, t)) ==
      Apply(Apply(Apply(Apply(s, ReadToken(c, t)), CommitFamilyRevocation(c)), ReadUser(c)), CommitRotation(c))
  {
    var s1 := Apply(s, ReadToken(c, t));
    var s2 := Apply(s1, CommitFamilyRevocation(c));
    var s3 := Apply(s2, ReadUser(c));
    assert RefreshSteps(c, t) == [ReadToken(c, t)] + ([CommitFamilyRevocation(c)] + ([ReadUser(c)] + ([CommitRotation(c)] + [])));
    RunStep(s, ReadToken(c, t), [CommitFamilyRevocation(c)] + ([ReadUser(c)] + ([CommitRotation(c)] + [])));
    RunStep(s1, CommitFamilyRevocation(c), [ReadUser(c)] + ([CommitRotation(c)] + []));
    RunStep(s2, ReadUser(c), [CommitRotation(c)] + []);
    RunStep(s3, CommitRotation(c), []);
  }

  predicate Presentable(s: State, t: TokenId) {
    t < |s.tokens| && !s.tokens[t].revoked && s.now < s.tokens[t].expires
  }

  /** A presentable token of an active user is exchanged for exactly one new live token. */
  lemma RefreshIssues(s: State, c: CallId, t: TokenId)
    requires Presentable(s, t) && s.tokens[t].user in s.active && s.active[s.tokens[t].user] && c !in s.calls
    ensures var s' := Run(s, RefreshSteps(c, t));
      && s'.calls == s.calls && s'.answers == s.answers[c := Issued(|s.tokens|)]
      && s'.tokens == s.tokens[t := s.tokens[t].(revoked := true, replacedBy := Some(|s.tokens|))] +
        [Token(s.tokens[t].user, s.now + REFRESH_TTL, false, None)]
  {
    RefreshRun(s, c, t);
    var u := s.tokens[t].user;
    var s1 := Apply(s, ReadToken(c, t));
    assert s1 == s.(calls := s.calls[c := Unchecked(t, u)]);
    var s2 := Apply(s1, CommitFamilyRevocation(c));
    assert s2 == s1;
    var s3 := Apply(s2, ReadUser(c));
    assert s3 == s.(calls := s1.calls[c := Rotating(t, u)]);
    var s4 := Apply(s3, CommitRotation(c));
    assert s4.calls == s.calls;
  }

  lemma SpentIsReplaced(s: State, t: TokenId)
    requires Inv(s) && Spent(s, t)
    ensures t < |s.tokens| && s.tokens[t].replacedBy.Some? && s.tokens[t].revoked
  {
  }

  lemma ReplacedRun(s: State, c: CallId, t: TokenId)
    requires t < |s.tokens| && s.tokens[t].replacedBy.Some? && s.tokens[t].revoked && c !in s.calls
    ensures var s' := Run(s, RefreshSteps(c, t));
      s' == s.(tokens := RevokeFamily(s.tokens, s.tokens[t].user), answers := s.answers[c := InvalidToken])
  {
    RefreshRun(s, c, t);
    var s1 := Apply(s, ReadToken(c, t));
    assert s1 == s.(calls := s.calls[c := Reusing(s.tokens[t].user)]);
    var s2 := Apply(s1, CommitFamilyRevocation(c));
    assert s2.calls == s.calls;
  }

  /** A spent token is refused and ends every live token of its user. */
  lemma RefreshDetects(s: State, c: CallId, t: TokenId)
    requires Inv(s) && Spent(s, t) && c !in s.calls
    ensures !Presentable(s, t) && t < |s.tokens|
    ensures var s' := Run(s, RefreshSteps(c, t));
      && s'.calls == s.calls && s'.answers == s.answers[c := InvalidToken]
      && s'.tokens == RevokeFamily(s.tokens, s.tokens[t].user)
      && LiveOf(s', s.tokens[t].user) == {}
  {
    SpentIsReplaced(s, t);
    ReplacedRun(s, c, t);
  }

  /** Any other token is refused without a trace in the table. */
  lemma RefreshRefuses(s: State, c: CallId, t: TokenId)
    requires Inv(s) && c !in s.calls && !Spent(s, t)
    requires Presentable(s, t) ==> s.tokens[t].user in s.active && !s.active[s.tokens[t].user]
    ensures var s' := Run(s, RefreshSteps(c, t));
      && s'.calls == s.calls && s'.tokens == s.tokens
      && s'.answers == s.answers[c := if Presentable(s, t) then UserFrozen else InvalidToken]
  {
    RefreshRun(s, c, t);
    var s1 := Apply(s, ReadToken(c, t));
    ReadDetectsReuse(s, c, t);
    if Presentable(s, t) {
      assert s1 == s.(calls := s.calls[c := Unchecked(t, s.tokens[t].user)]);
      var s3 := Apply(s1, ReadUser(c));
      assert s3.calls == s.calls;
    } else {
      assert s1 == Finish(s, c, InvalidToken);
      assert s1.calls == s.calls;
    }
  }

  /** What a whole call answers. */
  lemma RefreshAnswers(s: State, c: CallId, t: TokenId)
    requires Inv(s) && UsersExist(s) && c !in s.calls
    ensures t < |s.tokens| ==> s.tokens[t].user in s.active
    ensures var s' := Run(s, RefreshSteps(c, t));
      && s'.calls == s.calls
      && s'.answers == s.answers[c := if !Presentable(s, t) then InvalidToken
                                      else if s.active[s.tokens[t].user] then Issued(|s.tokens|) else UserFrozen]
  {
    if Spent(s, t) {
      RefreshDetects(s, c, t);
    } else if Presentable(s, t) && s.active[s.tokens[t].user] {
      RefreshIssues(s, c, t);
    } else {
      RefreshRefuses(s, c, t);
    }
  }

  // ---------------------------------------------------------------- the service

  /** auth.Service over its tables; one method per statement or transaction a call makes. */
  class Service {
    var now: int
    var active: map<UserId, bool>
    var tokens: seq<Token>
    var calls: map<CallId, Call>
    var answers: map<CallId, Answer>
    ghost var grants: seq<TokenId>
    ghost var exchanges: seq<Exchange>

    ghost function View(): State
      reads this
    {
      State(now, active, tokens, calls, answers, grants, exchanges)
    }

    ghost predicate Valid()
      reads this
    {
      Inv(View()) && UsersExist(View())
    }

    constructor (startTime: int)
      ensures Init(View()) && Valid() && now == startTime && active == map[]
    {
      now, active, tokens, calls, answers := startTime, map[], [], map[], map[];
      grants, exchanges := [], [];
    }

    /** newSession: store a new refresh token and hand out its id. */
    method NewSession(user: UserId) returns (id: TokenId)
      modifies this`tokens
      ensures id == old(|tokens|) && tokens == Insert(old(tokens), user, now)
    {
      id := |tokens|;
      tokens := tokens + [Token(user, now + REFRESH_TTL, false, None)];
    }

    /** Register: create the user and open the first session, or refuse a taken id. */
    method Register(user: UserId) returns (id: Option<TokenId>)
      requires Valid()
      modifies this
      ensures now == old(now)
      ensures Valid() && View() == Apply(old(View()), Step.Register(user))
      ensures user in old(active) ==> id == None && View() == old(View())
      ensures user !in old(active) ==>
        && id == Some(old(|tokens|)) && active == old(active)[user := true]
        && calls == old(calls) && answers == old(answers)
        && tokens == old(tokens) + [Token(user, now + REFRESH_TTL, false, None)]
    {
      StepSound(View(), Step.Register(user));
      if user in active {
        return None;
      }
      active := active[user := true];
      var minted := NewSession(user);
      grants := grants + [minted];
      id := Some(minted);
    }

    /** Login up to its transaction: password first, then status; an unknown user looks like a wrong password. */
    method BeginLogin(c: CallId, user: UserId, passwordOk: bool)
      requires Valid() && c !in calls
      modifies this
      ensures now == old(now) && active == old(active)
      ensures Valid() && View() == Apply(old(View()), Step.BeginLogin(c, user, passwordOk))
      ensures tokens == old(tokens) && active == old(active)
      ensures passwordOk && user in active && active[user] ==> calls == old(calls)[c := LoggingIn(user)] && answers == old(answers)
      ensures passwordOk && user in active && !active[user] ==> Ended(old(calls), old(answers), c, UserFrozen)
      ensures !passwordOk || user !in active ==> Ended(old(calls), old(answers), c, InvalidCredentials)
    {
      StepSound(View(), Step.BeginLogin(c, user, passwordOk));
      if user !in active || !passwordOk {
        End(c, InvalidCredentials);
        return;
      }
      if active[user] {
        calls := calls[c := LoggingIn(user)];
      } else {
        End(c, UserFrozen);
      }
    }

    /** The login transaction. */
    method CommitLogin(c: CallId)
      requires Valid() && c in calls && calls[c].LoggingIn?
      modifies this
      ensures now == old(now) && active == old(active)
      ensures Valid() && View() == Apply(old(View()), Step.CommitLogin(c))
      ensures tokens == old(tokens) + [Token(old(calls)[c].user, now + REFRESH_TTL, false, None)]
      ensures Ended(old(calls), old(answers), c, Issued(|old(tokens)|))
    {
      StepSound(View(), Step.CommitLogin(c));
      var minted := NewSession(calls[c].user);
      grants := grants + [minted];
      End(c, Issued(minted));
    }

    /** Refresh reads the presented row outside any transaction and decides. */
    method ReadToken(c: CallId, t: TokenId)
      requires Valid() && c !in calls
      modifies this
      ensures now == old(now) && active == old(active)
      ensures Valid() && View() == Apply(old(View()), Step.ReadToken(c, t))
      ensures tokens == old(tokens)
      ensures t < |tokens| && tokens[t].revoked && tokens[t].replacedBy.Some? ==>
        calls == old(calls)[c := Reusing(tokens[t].user)] && answers == old(answers)
      ensures t < |tokens| && !tokens[t].revoked && now < tokens[t].expires ==>
        calls == old(calls)[c := Unchecked(t, tokens[t].user)] && answers == old(answers)
      ensures t >= |tokens| || (tokens[t].revoked && tokens[t].replacedBy.None?) || (!tokens[t].revoked && tokens[t].expires <= now) ==>
        Ended(old(calls), old(answers), c, InvalidToken)
    {
      StepSound(View(), Step.ReadToken(c, t));
      if t >= |tokens| {
        End(c, InvalidToken);
        return;
      }
      var row := tokens[t];
      if row.revoked {
        if row.replacedBy.Some? {
          calls := calls[c := Reusing(row.user)];
        } else {
          End(c, InvalidToken);
        }
        return;
      }
      if row.expires <= now {
        End(c, InvalidToken);
        return;
      }
      calls := calls[c := Unchecked(t, row.user)];
    }

    /** RevokeUserRefreshTokens, the answer to a reused token. */
    method CommitFamilyRevocation(c: CallId)
      requires Valid() && c in calls && calls[c].Reusing?
      modifies this
      ensures now == old(now) && active == old(active)
      ensures Valid() && View() == Apply(old(View()), Step.CommitFamilyRevocation(c))
      ensures |tokens| == |old(tokens)| && forall i :: 0 <= i < |tokens| ==>
        && tokens[i].user == old(tokens)[i].user && tokens[i].expires == old(tokens)[i].expires
        && tokens[i].replacedBy == old(tokens)[i].replacedBy
        && (tokens[i].revoked <==> old(tokens)[i].revoked || old(tokens)[i].user == old(calls)[c].user)
      ensures Ended(old(calls), old(answers), c, InvalidToken)
    {
      StepSound(View(), Step.CommitFamilyRevocation(c));
      RevokeTheFamily(c);
    }

    method RevokeTheFamily(c: CallId)
      requires c in calls && calls[c].Reusing?
      modifies this
      ensures now == old(now) && active == old(active)
      ensures View() == Apply(old(View()), Step.CommitFamilyRevocation(c))
      ensures |tokens| == |old(tokens)| && forall i :: 0 <= i < |tokens| ==>
        && tokens[i].user == old(tokens)[i].user && tokens[i].expires == old(tokens)[i].expires
        && tokens[i].replacedBy == old(tokens)[i].replacedBy
        && (tokens[i].revoked <==> old(tokens)[i].revoked || old(tokens)[i].user == old(calls)[c].user)
      ensures Ended(old(calls), old(answers), c, InvalidToken)
    {
      tokens := RevokeFamily(tokens, calls[c].user);
      End(c, InvalidToken);
    }

    /** GetUser and the status check. */
    method ReadUser(c: CallId)
      requires Valid() && c in calls && calls[c].Unchecked?
      modifies this
      ensures now == old(now) && active == old(active)
      ensures Valid() && View() == Apply(old(View()), Step.ReadUser(c))
      ensures var k := old(calls)[c];
        && tokens == old(tokens) && k.user in active
        && if active[k.user] then calls == old(calls)[c := Rotating(k.token, k.user)] && answers == old(answers)
           else Ended(old(calls), old(answers), c, UserFrozen)
    {
      StepSound(View(), Step.ReadUser(c));
      var k := calls[c];
      if active[k.user] {
        calls := calls[c := Rotating(k.token, k.user)];
      } else {
        End(c, UserFrozen);
      }
    }

    /** The rotation transaction: insert first, then revoke; roll back unless exactly one row changed. */
    method CommitRotation(c: CallId)
      requires Valid() && c in calls && calls[c].Rotating?
      modifies this
      ensures now == old(now) && active == old(active)
      ensures Valid() && View() == Apply(old(View()), Step.CommitRotation(c))
      ensures var k := old(calls)[c]; var n := |old(tokens)|;
        k.token < n &&
        if old(tokens)[k.token].revoked then tokens == old(tokens) && Ended(old(calls), old(answers), c, InvalidToken)
        else
          && tokens == old(tokens)[k.token := old(tokens)[k.token].(revoked := true, replacedBy := Some(n))]
                       + [Token(k.user, now + REFRESH_TTL, false, None)]
          && Ended(old(calls), old(answers), c, Issued(n))
    {
      StepSound(View(), Step.CommitRotation(c));
      RotatingRowExists(View(), c);
      FinishRotation(c);
    }

    method FinishRotation(c: CallId)
      requires c in calls && calls[c].Rotating? && calls[c].token < |tokens|
      modifies this
      ensures now == old(now) && active == old(active)
      ensures View() == Apply(old(View()), Step.CommitRotation(c))
      ensures var k := old(calls)[c]; var n := |old(tokens)|;
        if old(tokens)[k.token].revoked then tokens == old(tokens) && Ended(old(calls), old(answers), c, InvalidToken)
        else
          && tokens == old(tokens)[k.token := old(tokens)[k.token].(revoked := true, replacedBy := Some(n))]
                       + [Token(k.user, now + REFRESH_TTL, false, None)]
          && Ended(old(calls), old(answers), c, Issued(n))
    {
      var k := calls[c];
      var minted := RotateRow(k.token, k.user);
      if minted.None? {
        End(c, InvalidToken);
        return;
      }
      exchanges := exchanges + [Exchange(k.token, minted.value)];
      End(c, Issued(minted.value));
    }

    /** The two statements of the transaction. */
    method RotateRow(t: TokenId, user: UserId) returns (minted: Option<TokenId>)
      requires t < |tokens|
      modifies this`tokens
      ensures old(tokens)[t].revoked ==> minted == None && tokens == old(tokens)
      ensures !old(tokens)[t].revoked ==>
        && minted == Some(|old(tokens)|) && tokens == Rotate(old(tokens), t, user, now)
        && tokens == old(tokens)[t := old(tokens)[t].(revoked := true, replacedBy := minted)]
                     + [Token(user, now + REFRESH_TTL, false, None)]
    {
      var before := tokens;
      var id := NewSession(user);
      var changed := if tokens[t].revoked then 0 else 1;
      tokens := Revoke(tokens, t, Some(id));
      if changed != 1 {
        tokens := before;
        return None;
      }
      minted := Some(id);
    }

    /** Logout: revoke without a successor; unknown and already revoked tokens are ignored. */
    method Logout(t: TokenId)
      requires Valid()
      modifies this
      ensures now == old(now) && active == old(active)
      ensures Valid() && View() == Apply(old(View()), Step.Logout(t))
      ensures |tokens| == |old(tokens)| && calls == old(calls) && answers == old(answers)
      ensures t < |tokens| ==> tokens[t].revoked && (!old(tokens)[t].revoked ==> tokens[t].replacedBy == None)
      ensures t < |tokens| && old(tokens)[t].revoked ==> tokens[t] == old(tokens)[t]
      ensures t < |tokens| ==> tokens[t].user == old(tokens)[t].user && tokens[t].expires == old(tokens)[t].expires
      ensures forall i :: 0 <= i < |tokens| && i != t ==> tokens[i] == old(tokens)[i]
    {
      StepSound(View(), Step.Logout(t));
      if t >= |tokens| {
        return;
      }
      tokens := Revoke(tokens, t, None);
    }

    /** A whole Refresh that nothing interrupts. */
    method Refresh(c: CallId, t: TokenId) returns (a: Answer)
      requires Valid() && c !in calls
      modifies this
      ensures now == old(now) && active == old(active)
      ensures Valid() && View() == Run(old(View()), RefreshSteps(c, t))
      ensures Ended(old(calls), old(answers), c, a)
      ensures t < |old(tokens)| ==> old(tokens)[t].user in old(active)
      ensures a == if t < |old(tokens)| && !old(tokens)[t].revoked && old(now) < old(tokens)[t].expires
                   then if old(active)[old(tokens)[t].user] then Issued(|old(tokens)|) else UserFrozen
                   else InvalidToken
    {
      ghost var before := View();
      RefreshAnswers(before, c, t);
      assert calls - {c} == calls;
      RunStatements(c, t);
      assert calls == View().calls == before.calls && answers == View().answers;
      a := answers[c];
    }

    method RunStatements(c: CallId, t: TokenId)
      requires Valid() && c !in calls
      modifies this
      ensures now == old(now) && active == old(active)
      ensures Valid() && View() == Run(old(View()), RefreshSteps(c, t))
    {
      RefreshRun(View(), c, t);
      ReadToken(c, t);
      Proceed(c);
    }

    /** Refresh after its read. */
    method Proceed(c: CallId)
      requires Valid() && (c in calls ==> calls[c].Reusing? || calls[c].Unchecked?)
      modifies this
      ensures now == old(now) && active == old(active)
      ensures Valid()
      ensures View() == Apply(Apply(Apply(old(View()), Step.CommitFamilyRevocation(c)), Step.ReadUser(c)), Step.CommitRotation(c))
    {
      IdleStep(View(), c);
      if c in calls && calls[c].Reusing? {
        CommitFamilyRevocation(c);
        IdleStep(View(), c);
      }
      if c in calls {
        ReadUser(c);
        IdleStep(View(), c);
      }
      if c in calls {
        CommitRotation(c);
      }
    }

    /** Call c has ended with this answer, and nothing happened to the others. */
    ghost predicate Ended(calls0: map<CallId, Call>, answers0: map<CallId, Answer>, c: CallId, a: Answer)
      reads this
    {
      calls == calls0 - {c} && answers == answers0[c := a]
    }

    method End(c: CallId, a: Answer)
      modifies this`calls, this`answers
      ensures calls == old(calls) - {c} && answers == old(answers)[c := a]
    {
      calls := calls - {c};
      answers := answers[c := a];
    }
  }

  lemma RotatingRowExists(s: State, c: CallId)
    requires Inv(s) && c in s.calls && s.calls[c].Rotating?
    ensures s.calls[c].token < |s.tokens|
  {
  }

  /** A step that does not fit the call's progress does nothing. */
  lemma IdleStep(s: State, c: CallId)
    ensures c !in s.calls || !s.calls[c].Reusing? ==> Apply(s, CommitFamilyRevocation(c)) == s
    ensures c !in s.calls || !s.calls[c].Unchecked? ==> Apply(s, ReadUser(c)) == s
    ensures c !in s.calls || !s.calls[c].Rotating? ==> Apply(s, CommitRotation(c)) == s
  {
  }

  lemma StepKeepsUsers(s: State, step: Step)
    requires UsersExist(s)
    ensures UsersExist(Apply(s, step))
  {
    match step
    case CommitRotation(c) =>
      if c in s.calls && s.calls[c].Rotating? { assert s.calls[c].user in s.active; }
    case _ =>
  }

  /** Any step keeps the lineage and the foreign keys. */
  lemma StepSound(s: State, step: Step)
    requires Inv(s) && UsersExist(s)
    ensures Inv(Apply(s, step)) && UsersExist(Apply(s, step))
  {
    StepKeepsInv(s, step);
    StepKeepsUsers(s, step);
  }
}
