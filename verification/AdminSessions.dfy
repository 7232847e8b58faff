/**
 Administrator sessions and the second factor (internal/auth/adminsession.go),
 over the user directory. Each public call is one step. Session ids are drawn in
 order, which stands for random tokens. Times are seconds.
 */
module AdminSessions {
  import opened Options
  import U = Users
  import T = Totp

  type SessionId = nat

  const PENDING_TTL := 10 * 60        // adminPendingTTL
  const SESSION_TTL := 8 * 3600       // AdminSessionTTL
  const MAX_FAILURES := 5             // totpMaxFailures
  const LOCKOUT := 15 * 60            // totpLockout

  /** The TOTP columns of auth.users. */
  datatype Factor = Factor(secret: bool, enabled: bool, failures: nat, lockedUntil: Option<int>, lastStep: Option<int>)

  /** `parent` is history: the session whose token carried the accepted code. */
  datatype Session = Session(user: U.UserId, expires: int, verified: bool, revoked: bool, parent: Option<SessionId>)

  datatype Entry =
    | Accepted(user: U.UserId, at: int, step: int, session: SessionId)
    | Rejected(user: U.UserId, at: int)                     // a code was compared and counted as wrong
    | Enrolled(user: U.UserId, at: int)

  /** `signins` is history: whose right password opened which pending session. */
  datatype State = State(now: int, dir: U.State, factors: map<U.UserId, Factor>, sessions: seq<Session>,
                         log: seq<Entry>, signins: map<SessionId, U.UserId>)

  datatype Op =
    | Tick(elapsed: nat)
    | Directory(op: U.Op)
    | Login(user: U.UserId, passwordOk: bool)
    | Check(token: SessionId, good: set<int>, enrolling: bool)
    | Logout(token: SessionId)
    | Enroll(user: U.UserId)

  datatype Answer =
    | Opened(session: SessionId) | Done
    | InvalidCredentials | InvalidToken | NotEnrolled | AlreadyEnabled | Locked | InvalidCode | NotFound | NotAdmin

  // ---------------------------------------------------------------- tables

  function FactorIn(factors: map<U.UserId, Factor>, u: U.UserId): Factor {
    if u in factors then factors[u] else Factor(false, false, 0, None, None)
  }

  function FactorOf(s: State, u: U.UserId): Factor {
    FactorIn(s.factors, u)
  }

  predicate LiveAdmin(s: State, u: U.UserId) {
    u in s.dir.users && s.dir.users[u].role == U.Admin && s.dir.users[u].status == U.ACTIVE
  }

  /** AdminSession: the token names a live session of a live administrator. */
  predicate Resolves(s: State, token: SessionId) {
    token < |s.sessions| && !s.sessions[token].revoked && s.sessions[token].expires > s.now && LiveAdmin(s, s.sessions[token].user)
  }

  /** RevokeUserAdminSessions. */
  function RevokeAll(sessions: seq<Session>, u: U.UserId): (r: seq<Session>)
    ensures |r| == |sessions|
    ensures forall i :: 0 <= i < |r| ==>
      r[i] == if sessions[i].user == u then sessions[i].(revoked := true) else sessions[i]
  {
    seq(|sessions|, i requires 0 <= i < |sessions| =>
      if sessions[i].user == u then sessions[i].(revoked := true) else sessions[i])
  }

  /** RevokeAdminSession. */
  function RevokeOne(sessions: seq<Session>, i: SessionId): seq<Session> {
    if i < |sessions| then sessions[i := sessions[i].(revoked := true)] else sessions
  }

  // ---------------------------------------------------------------- calls

  predicate LockedOut(f: Factor, now: int) {
    f.lockedUntil.Some? && f.lockedUntil.value > now
  }

  /** The step a code is accepted for: a match that is not already spent. */
  function AcceptedStep(f: Factor, good: set<int>, now: int): Option<int> {
    var m := T.Match(good, now);
    if m.Some? && f.lastStep.Some? && m.value <= f.lastStep.value then None else m
  }

  /** RecordTOTPFailure: the counter keeps counting, so every further miss locks again. */
  function AfterMiss(f: Factor, now: int): Factor {
    f.(failures := f.failures + 1,
       lockedUntil := if f.failures + 1 >= MAX_FAILURES then Some(now + LOCKOUT) else f.lockedUntil)
  }

  function AfterHit(f: Factor, step: int, enrolling: bool): Factor {
    f.(enabled := if enrolling then true else f.enabled, failures := 0, lockedUntil := None, lastStep := Some(step))
  }

  /** Whether checkCode gets as far as comparing the code, or what it answers instead. */
  function Refusal(s: State, token: SessionId, enrolling: bool): Option<Answer> {
    if !Resolves(s, token) then Some(InvalidToken)
    else
      var f := FactorOf(s, s.sessions[token].user);
      if enrolling && f.enabled then Some(AlreadyEnabled)
      else if (!enrolling && !f.enabled) || !f.secret then Some(NotEnrolled)
      else if LockedOut(f, s.now) then Some(Locked)
      else None
  }

  function AnswerTo(s: State, op: Op): Answer {
    match op
    case Login(u, ok) => if ok && LiveAdmin(s, u) then Opened(|s.sessions|) else InvalidCredentials
    case Check(t, good, enrolling) =>
      var r := Refusal(s, t, enrolling);
      if r.Some? then r.value
      else
        var f := FactorOf(s, s.sessions[t].user);
        if AcceptedStep(f, good, s.now).Some? then Opened(|s.sessions|)
        else if LockedOut(AfterMiss(f, s.now), s.now) then Locked else InvalidCode
    case Enroll(u) => if u !in s.dir.users then NotFound else if s.dir.users[u].role != U.Admin then NotAdmin else Done
    case _ => Done
  }

  function Compare(s: State, t: SessionId, good: set<int>, enrolling: bool): State
    requires Resolves(s, t)
  {
    var u := s.sessions[t].user;
    var f := FactorOf(s, u);
    var step := AcceptedStep(f, good, s.now);
    if step.None? then
      s.(factors := s.factors[u := AfterMiss(f, s.now)], log := s.log + [Rejected(u, s.now)])
    else
      s.(factors := s.factors[u := AfterHit(f, step.value, enrolling)],
         sessions := RevokeOne(s.sessions, t) + [Session(u, s.now + SESSION_TTL, true, false, Some(t))],
         log := s.log + [Accepted(u, s.now, step.value, |s.sessions|)])
  }

  /** The history of right passwords. */
  function SignIn(s: State, u: U.UserId, passwordOk: bool): map<SessionId, U.UserId> {
    if passwordOk then s.signins[|s.sessions| := u] else s.signins
  }

  function Apply(s: State, op: Op): State {
    match op
    case Tick(d) => s.(now := s.now + d)
    case Directory(o) =>
      s.(dir := U.Apply(s.dir, o),
         sessions := if o.SetStatus? && U.EndsSessions(s.dir, o, o.id) then RevokeAll(s.sessions, o.id) else s.sessions)
    case Login(u, ok) =>
      if ok && LiveAdmin(s, u)
      then s.(sessions := s.sessions + [Session(u, s.now + PENDING_TTL, false, false, None)], signins := SignIn(s, u, ok)) else s
    case Check(t, good, enrolling) =>
      if Refusal(s, t, enrolling).Some? then s else Compare(s, t, good, enrolling)
    case Logout(t) => s.(sessions := RevokeOne(s.sessions, t))
    case Enroll(u) =>
      if u !in s.dir.users || s.dir.users[u].role != U.Admin then s
      else s.(factors := s.factors[u := Factor(true, false, 0, None, None)],
              sessions := RevokeAll(s.sessions, u), log := s.log + [Enrolled(u, s.now)])
  }

  function Run(s: State, ops: seq<Op>): State
    decreases |ops|
  {
    if ops == [] then s else Run(Apply(s, ops[0]), ops[1..])
  }

  // ---------------------------------------------------------------- sessions

  ghost predicate SessionsSound(s: State) {
    && (forall i :: 0 <= i < |s.sessions| ==>
        && s.sessions[i].user in s.dir.users && s.dir.users[s.sessions[i].user].role == U.Admin
        && (!s.sessions[i].revoked ==> s.dir.users[s.sessions[i].user].status == U.ACTIVE))
    && ParentsSound(s.sessions)
  }

  /** A verified session came from exactly one older session of the same user, which is dead; a pending one from none. */
  ghost predicate ParentsSound(ss: seq<Session>) {
    && (forall i :: 0 <= i < |ss| ==> (ss[i].verified <==> ss[i].parent.Some?))
    && (forall i :: 0 <= i < |ss| && ss[i].parent.Some? ==>
        ss[i].parent.value < i && ss[ss[i].parent.value].user == ss[i].user && ss[ss[i].parent.value].revoked)
    && (forall i, j :: 0 <= i < j < |ss| && ss[i].parent.Some? ==> ss[i].parent != ss[j].parent)
  }

  /** Each verified session has its accepted code in the log. */
  ghost predicate VerifiedByCode(s: State) {
    forall i :: 0 <= i < |s.sessions| && s.sessions[i].verified ==>
      exists k :: 0 <= k < |s.log| && s.log[k].Accepted? && s.log[k].session == i && s.log[k].user == s.sessions[i].user
  }

  lemma RevokeKeepsParents(a: seq<Session>, b: seq<Session>)
    requires ParentsSound(a) && |a| == |b|
    requires forall i :: 0 <= i < |a| ==> b[i] == a[i] || b[i] == a[i].(revoked := true)
    ensures ParentsSound(b)
  {
  }

  lemma CheckKeepsParents(a: seq<Session>, t: SessionId, expires: int)
    requires ParentsSound(a) && t < |a| && !a[t].revoked
    ensures ParentsSound(RevokeOne(a, t) + [Session(a[t].user, expires, true, false, Some(t))])
  {
  }

  lemma DirectoryKeepsSessions(s: State, o: U.Op)
    requires SessionsSound(s)
    ensures SessionsSound(Apply(s, Directory(o)))
  {
    var s' := Apply(s, Directory(o));
    RevokeKeepsParents(s.sessions, s'.sessions);
  }

  lemma CheckKeepsSessions(s: State, t: SessionId, good: set<int>, enrolling: bool)
    requires SessionsSound(s) && Resolves(s, t)
    ensures SessionsSound(Compare(s, t, good, enrolling))
  {
    CheckKeepsParents(s.sessions, t, s.now + SESSION_TTL);
  }

  /** Revoking sessions in place. */
  lemma RevokeKeepsSessions(s: State, s': State)
    requires SessionsSound(s) && s'.dir == s.dir && |s'.sessions| == |s.sessions|
    requires forall i :: 0 <= i < |s.sessions| ==>
      s'.sessions[i] == s.sessions[i] || s'.sessions[i] == s.sessions[i].(revoked := true)
    ensures SessionsSound(s')
  {
    RevokeKeepsParents(s.sessions, s'.sessions);
  }

  lemma StepKeepsSessions(s: State, op: Op)
    requires SessionsSound(s)
    ensures SessionsSound(Apply(s, op))
  {
    match op
    case Tick(_) =>
    case Login(u, ok) =>
    case Directory(o) => DirectoryKeepsSessions(s, o);
    case Check(t, good, enrolling) =>
      if Refusal(s, t, enrolling).None? { CheckKeepsSessions(s, t, good, enrolling); }
    case Logout(t) => RevokeKeepsSessions(s, Apply(s, op));
    case Enroll(u) => RevokeKeepsSessions(s, Apply(s, op));
  }

  lemma StepKeepsCodes(s: State, op: Op)
    requires VerifiedByCode(s)
    ensures VerifiedByCode(Apply(s, op))
  {
    var s' := Apply(s, op);
    forall i | 0 <= i < |s'.sessions| && s'.sessions[i].verified
      ensures exists k :: 0 <= k < |s'.log| && s'.log[k].Accepted? && s'.log[k].session == i && s'.log[k].user == s'.sessions[i].user
    {
      if i < |s.sessions| {
        var k :| 0 <= k < |s.log| && s.log[k].Accepted? && s.log[k].session == i && s.log[k].user == s.sessions[i].user;
        assert s'.log[k] == s.log[k];
      } else {
        assert s'.log[|s.log|].session == i;
      }
    }
  }

  /** Rows never lose a revocation and never change hands. */
  ghost predicate SessionsPersist(a: seq<Session>, b: seq<Session>) {
    && |a| <= |b|
    && forall i :: 0 <= i < |a| ==>
        && b[i].user == a[i].user && b[i].expires == a[i].expires && b[i].verified == a[i].verified && b[i].parent == a[i].parent
        && (a[i].revoked ==> b[i].revoked)
  }

  lemma {:induction false} RunKeepsSessions(s: State, ops: seq<Op>)
    requires SessionsSound(s) && VerifiedByCode(s)
    ensures SessionsSound(Run(s, ops)) && VerifiedByCode(Run(s, ops))
    ensures SessionsPersist(s.sessions, Run(s, ops).sessions)
    decreases |ops|
  {
    if ops != [] {
      StepKeepsSessions(s, ops[0]);
      StepKeepsCodes(s, ops[0]);
      StepPersists(s, ops[0]);
      RunKeepsSessions(Apply(s, ops[0]), ops[1..]);
    }
  }

  lemma StepPersists(s: State, op: Op)
    ensures SessionsPersist(s.sessions, Apply(s, op).sessions)
  {
  }

  /** The pending session at the start of a session's line. */
  ghost function Root(ss: seq<Session>, i: SessionId): SessionId
    requires ParentsSound(ss) && i < |ss|
    decreases i
  {
    if ss[i].parent.None? then i else Root(ss, ss[i].parent.value)
  }

  /** Every session descends from one pending session of its own user; passing a code kills the token that carried it. */
  lemma {:induction false} Descent(ss: seq<Session>, i: SessionId)
    requires ParentsSound(ss) && i < |ss|
    ensures var r := Root(ss, i);
      r <= i && !ss[r].verified && ss[r].user == ss[i].user && (ss[i].verified ==> ss[r].revoked && r < i)
    decreases i
  {
    if ss[i].parent.Some? { Descent(ss, ss[i].parent.value); }
  }

  ghost predicate Ancestor(ss: seq<Session>, p: SessionId, i: SessionId)
    requires ParentsSound(ss) && i < |ss|
    decreases i
  {
    i == p || (ss[i].parent.Some? && Ancestor(ss, p, ss[i].parent.value))
  }

  /** A proper ancestor has a child on the way. */
  lemma {:induction false} ChildOnLine(ss: seq<Session>, p: SessionId, i: SessionId) returns (c: SessionId)
    requires ParentsSound(ss) && i < |ss| && Ancestor(ss, p, i) && p != i
    ensures p < c <= i && ss[c].parent == Some(p)
    decreases i
  {
    if ss[i].parent.value == p { c := i; } else { c := ChildOnLine(ss, p, ss[i].parent.value); }
  }

  /** Sessions with the same root form one line. */
  lemma {:induction false} SameLine(ss: seq<Session>, i: SessionId, j: SessionId)
    requires ParentsSound(ss) && i < j < |ss| && Root(ss, i) == Root(ss, j)
    ensures Ancestor(ss, i, j)
    decreases i + j
  {
    Descent(ss, i);
    Descent(ss, j);
    var p := ss[j].parent.value;
    if p > i {
      SameLine(ss, i, p);
    } else if p < i {
      SameLine(ss, p, i);
      var c := ChildOnLine(ss, p, i);
      assert false;
    }
  }

  /** Two live sessions never come from the same login: everything on a line but its newest session is dead. */
  lemma OneLivePerLogin(ss: seq<Session>, i: SessionId, j: SessionId)
    requires ParentsSound(ss) && i < j < |ss| && Root(ss, i) == Root(ss, j)
    ensures ss[i].revoked
  {
    SameLine(ss, i, j);
    var c := ChildOnLine(ss, i, j);
  }

  /** A verified session can itself be retired by a further code, so a parent need not be pending. */
  lemma VerifiedCanBeParent(s: State, t: SessionId, good: set<int>)
    requires Resolves(s, t) && s.sessions[t].verified
    requires Refusal(s, t, false).None? && AcceptedStep(FactorOf(s, s.sessions[t].user), good, s.now).Some?
    ensures var s' := Apply(s, Check(t, good, false));
      s'.sessions[|s.sessions|].verified && s'.sessions[|s.sessions|].parent == Some(t) && !Resolves(s', t)
  {
  }

  // ---------------------------------------------------------------- passwords

  /** Every session that no code opened was opened by its own user's right password. */
  ghost predicate SignedIn(s: State) {
    forall i :: 0 <= i < |s.sessions| && s.sessions[i].parent.None? ==>
      i in s.signins && s.signins[i] == s.sessions[i].user
  }

  lemma StepKeepsSignedIn(s: State, op: Op)
    requires SignedIn(s)
    ensures SignedIn(Apply(s, op))
  {
  }

  lemma {:induction false} RunKeepsSignedIn(s: State, ops: seq<Op>)
    requires SignedIn(s)
    ensures SignedIn(Run(s, ops))
    decreases |ops|
  {
    if ops != [] {
      StepKeepsSignedIn(s, ops[0]);
      RunKeepsSignedIn(Apply(s, ops[0]), ops[1..]);
    }
  }

  /** The history records right passwords only, each for the session it opened. */
  lemma SignInsAreLogins(s: State, op: Op)
    ensures var s' := Apply(s, op);
      s'.signins != s.signins ==>
        && op.Login? && op.passwordOk && LiveAdmin(s, op.user)
        && s'.signins == s.signins[|s.sessions| := op.user] && |s'.sessions| == |s.sessions| + 1
  {
  }

  /** Over every run: the pending session a session's line begins with was opened by a right password of its user. */
  lemma PasswordAtTheRoot(s: State, ops: seq<Op>, i: SessionId)
    requires SessionsSound(s) && VerifiedByCode(s) && SignedIn(s) && i < |Run(s, ops).sessions|
    ensures ParentsSound(Run(s, ops).sessions)
    ensures var s' := Run(s, ops); var r := Root(s'.sessions, i);
      r in s'.signins && s'.signins[r] == s'.sessions[i].user
  {
    RunKeepsSessions(s, ops);
    RunKeepsSignedIn(s, ops);
    Descent(Run(s, ops).sessions, i);
    RootIsPending(Run(s, ops).sessions, i);
  }

  lemma {:induction false} RootIsPending(ss: seq<Session>, i: SessionId)
    requires ParentsSound(ss) && i < |ss|
    ensures Root(ss, i) < |ss| && ss[Root(ss, i)].parent.None?
    decreases i
  {
    if ss[i].parent.Some? { RootIsPending(ss, ss[i].parent.value); }
  }

  /** A login opens a session exactly with the right password of an active administrator. */
  lemma LoginOpensIff(s: State, u: U.UserId, passwordOk: bool)
    ensures AnswerTo(s, Login(u, passwordOk)).Opened? <==>
      passwordOk && u in s.dir.users && s.dir.users[u].role == U.Admin && s.dir.users[u].status == U.ACTIVE
    ensures !AnswerTo(s, Login(u, passwordOk)).Opened? ==>
      AnswerTo(s, Login(u, passwordOk)) == InvalidCredentials && Apply(s, Login(u, passwordOk)) == s
  {
  }

  // ---------------------------------------------------------------- cut-offs

  /** After this operation no session the user has may ever resolve again. */
  ghost predicate CutsOff(s: State, op: Op, u: U.UserId) {
    || (op == Enroll(u) && AnswerTo(s, op) == Done)
    || (op.Directory? && op.op == U.SetStatus(u, U.FROZEN) && u in s.dir.users && U.Apply(s.dir, op.op).users[u].status == U.FROZEN)
  }

  lemma CutOffRevokes(s: State, op: Op, u: U.UserId, t: SessionId)
    requires SessionsSound(s) && CutsOff(s, op, u) && t < |s.sessions| && s.sessions[t].user == u
    ensures Apply(s, op).sessions[t].revoked
  {
  }

  /** No session from before a re-enrolment or a freeze resolves after it, even once the user is active again. */
  lemma NoSessionSurvives(s: State, op: Op, u: U.UserId, t: SessionId, later: seq<Op>)
    requires SessionsSound(s) && VerifiedByCode(s) && CutsOff(s, op, u)
    requires t < |s.sessions| && s.sessions[t].user == u
    ensures !Resolves(Run(Apply(s, op), later), t)
  {
    CutOffRevokes(s, op, u, t);
    StepKeepsSessions(s, op);
    StepKeepsCodes(s, op);
    RunKeepsSessions(Apply(s, op), later);
  }

  /** A directory edit ends exactly the sessions of the administrator it freezes. */
  lemma FreezeEndsExactly(s: State, o: U.Op, i: SessionId)
    requires SessionsSound(s) && i < |s.sessions|
    ensures var s' := Apply(s, Directory(o)); var u := s.sessions[i].user;
      && |s'.sessions| == |s.sessions|
      && s'.sessions[i] == s.sessions[i].(revoked := s'.sessions[i].revoked)
      && (s'.sessions[i].revoked <==>
          s.sessions[i].revoked || (s.dir.users[u].status != U.FROZEN && s'.dir.users[u].status == U.FROZEN))
  {
  }

  lemma RevokedForGood(s: State, t: SessionId, later: seq<Op>)
    requires SessionsSound(s) && VerifiedByCode(s) && t < |s.sessions| && s.sessions[t].revoked
    ensures !Resolves(Run(s, later), t)
  {
    RunKeepsSessions(s, later);
  }

  lemma CodeRevokes(s: State, t: SessionId, good: set<int>, enrolling: bool)
    requires AnswerTo(s, Check(t, good, enrolling)).Opened?
    ensures var s' := Apply(s, Check(t, good, enrolling)); t < |s'.sessions| && s'.sessions[t].revoked
  {
  }

  /** Nor does the token that carried an accepted code. */
  lemma UsedTokenIsDead(s: State, t: SessionId, good: set<int>, enrolling: bool, later: seq<Op>)
    requires SessionsSound(s) && VerifiedByCode(s) && AnswerTo(s, Check(t, good, enrolling)).Opened?
    ensures !Resolves(Run(Apply(s, Check(t, good, enrolling)), later), t)
  {
    StepKeepsSessions(s, Check(t, good, enrolling));
    StepKeepsCodes(s, Check(t, good, enrolling));
    CodeRevokes(s, t, good, enrolling);
    RevokedForGood(Apply(s, Check(t, good, enrolling)), t, later);
  }

  /** A call that answers with a session has opened exactly that one: pending from a password, verified from a code. */
  lemma AnswerMeans(s: State, op: Op)
    requires op.Login? || op.Check?
    ensures var s' := Apply(s, op);
      if AnswerTo(s, op).Opened? then
        && AnswerTo(s, op).session == |s.sessions| && |s'.sessions| == |s.sessions| + 1
        && Resolves(s', |s.sessions|) && (s'.sessions[|s.sessions|].verified <==> op.Check?)
      else s'.sessions == s.sessions
  {
  }

  /** A pending session resolves for less than ten minutes, a verified one for less than the session lifetime. */
  lemma LifetimeBounded(s: State, op: Op, later: seq<Op>)
    requires SessionsSound(s) && VerifiedByCode(s) && (op.Login? || op.Check?) && AnswerTo(s, op).Opened?
    ensures var s' := Run(Apply(s, op), later);
      Resolves(s', |s.sessions|) ==> s'.now < s.now + if op.Check? then SESSION_TTL else PENDING_TTL
  {
    StepKeepsSessions(s, op);
    StepKeepsCodes(s, op);
    RunKeepsSessions(Apply(s, op), later);
  }

  // ---------------------------------------------------------------- spent steps

  /** The last step accepted for u since its last enrolment. */
  ghost function LastAccepted(log: seq<Entry>, u: U.UserId): Option<int> {
    if log == [] then None
    else
      match log[|log| - 1]
      case Enrolled(v, _) => if v == u then None else LastAccepted(log[..|log| - 1], u)
      case Accepted(v, _, step, _) => if v == u then Some(step) else LastAccepted(log[..|log| - 1], u)
      case Rejected(_, _) => LastAccepted(log[..|log| - 1], u)
  }

  /** Every accepted step was near the clock and later than the last one accepted since enrolment. */
  ghost predicate EntrySound(log: seq<Entry>, k: nat)
    requires k < |log|
  {
    log[k].Accepted? ==>
      && T.Step(log[k].at) - 1 <= log[k].step <= T.Step(log[k].at) + 1
      && var last := LastAccepted(log[..k], log[k].user); last.None? || last.value < log[k].step
  }

  ghost predicate LogSound(s: State) {
    && (forall k :: 0 <= k < |s.log| ==> EntrySound(s.log, k) && s.log[k].at <= s.now)
    && (forall i, j :: 0 <= i < j < |s.log| ==> s.log[i].at <= s.log[j].at)
    && (forall u :: FactorOf(s, u).lastStep == LastAccepted(s.log, u))
  }

  lemma LastAcceptedAppend(log: seq<Entry>, e: Entry, u: U.UserId)
    ensures LastAccepted(log + [e], u) ==
      (match e
       case Enrolled(v, _) => if v == u then None else LastAccepted(log, u)
       case Accepted(v, _, step, _) => if v == u then Some(step) else LastAccepted(log, u)
       case Rejected(_, _) => LastAccepted(log, u))
  {
    assert (log + [e])[..|log|] == log;
  }

  function LastStepAfter(s: State, e: Entry, u: U.UserId): Option<int> {
    if u != e.user || e.Rejected? then FactorOf(s, u).lastStep else if e.Accepted? then Some(e.step) else None
  }

  /** One more entry, at the present time, with the factor updated to match. */
  lemma LogAppends(s: State, s': State, e: Entry)
    requires LogSound(s) && s'.log == s.log + [e] && s'.now == s.now && e.at == s.now
    requires e.Accepted? ==>
      && T.Step(e.at) - 1 <= e.step <= T.Step(e.at) + 1
      && (FactorOf(s, e.user).lastStep.None? || FactorOf(s, e.user).lastStep.value < e.step)
    requires forall u :: FactorOf(s', u).lastStep == LastStepAfter(s, e, u)
    ensures LogSound(s')
  {
    forall k | 0 <= k < |s'.log| ensures EntrySound(s'.log, k) && s'.log[k].at <= s'.now {
      if k < |s.log| {
        assert EntrySound(s.log, k) && s'.log[..k] == s.log[..k];
      } else {
        assert s'.log[..k] == s.log;
      }
    }
    forall u ensures FactorOf(s', u).lastStep == LastAccepted(s'.log, u) {
      LastAcceptedAppend(s.log, e, u);
    }
  }

  lemma CheckKeepsLog(s: State, t: SessionId, good: set<int>, enrolling: bool)
    requires LogSound(s) && Resolves(s, t)
    ensures LogSound(Compare(s, t, good, enrolling))
  {
    T.MatchWithinOne(good, s.now);
    var s' := Compare(s, t, good, enrolling);
    LogAppends(s, s', s'.log[|s.log|]);
  }

  lemma StepKeepsLog(s: State, op: Op)
    requires LogSound(s)
    ensures LogSound(Apply(s, op))
  {
    var s' := Apply(s, op);
    match op
    case Check(t, good, enrolling) =>
      if Refusal(s, t, enrolling).None? { CheckKeepsLog(s, t, good, enrolling); }
    case Enroll(u) =>
      if s'.log != s.log { LogAppends(s, s', Enrolled(u, s.now)); }
    case _ => SameLog(s, s');
  }

  lemma SameLog(s: State, s': State)
    requires LogSound(s) && s'.log == s.log && s'.factors == s.factors && s.now <= s'.now
    ensures LogSound(s')
  {
    forall k | 0 <= k < |s.log| ensures EntrySound(s'.log, k) { assert EntrySound(s.log, k); }
    forall u ensures FactorOf(s', u).lastStep == LastAccepted(s'.log, u) {
      assert FactorOf(s, u).lastStep == LastAccepted(s.log, u);
    }
  }

  lemma {:induction false} RunKeepsLog(s: State, ops: seq<Op>)
    requires LogSound(s)
    ensures LogSound(Run(s, ops)) && s.log <= Run(s, ops).log && s.now <= Run(s, ops).now
    decreases |ops|
  {
    if ops != [] {
      StepKeepsLog(s, ops[0]);
      RunKeepsLog(Apply(s, ops[0]), ops[1..]);
    }
  }

  ghost predicate NoEnrolment(log: seq<Entry>, from: nat, end: nat, u: U.UserId)
    requires end <= |log|
  {
    forall k :: from <= k < end ==> !(log[k].Enrolled? && log[k].user == u)
  }

  /** The codes accepted for u in log[from..to]. */
  ghost function Successes(log: seq<Entry>, from: nat, end: nat, u: U.UserId): nat
    requires from <= end <= |log|
    decreases end
  {
    if from == end then 0
    else Successes(log, from, end - 1, u) + if log[end - 1].Accepted? && log[end - 1].user == u then 1 else 0
  }

  /** Between enrolments the n-th accepted step is at least n - 1 above the first that could be. */
  lemma {:induction false} StepsClimb(s: State, from: nat, end: nat, u: U.UserId, base: int)
    requires LogSound(s) && from <= end <= |s.log| && NoEnrolment(s.log, from, end, u)
    requires forall k :: from <= k < end ==> base <= T.Step(s.log[k].at) - 1
    ensures Successes(s.log, from, end, u) > 0 ==>
      LastAccepted(s.log[..end], u).Some? && LastAccepted(s.log[..end], u).value >= base + Successes(s.log, from, end, u) - 1
    decreases end
  {
    if from != end {
      StepsClimb(s, from, end - 1, u, base);
      assert EntrySound(s.log, end - 1);
      assert s.log[..end][..end - 1] == s.log[..end - 1];
    }
  }

  lemma {:induction false} LastStepRecent(s: State, from: nat, end: nat, u: U.UserId, t1: int)
    requires LogSound(s) && from <= end <= |s.log| && NoEnrolment(s.log, from, end, u)
    requires forall k :: from <= k < end ==> s.log[k].at <= t1
    ensures Successes(s.log, from, end, u) > 0 ==>
      LastAccepted(s.log[..end], u).Some? && LastAccepted(s.log[..end], u).value <= T.Step(t1) + 1
    decreases end
  {
    if from != end {
      LastStepRecent(s, from, end - 1, u, t1);
      assert EntrySound(s.log, end - 1);
      assert s.log[..end][..end - 1] == s.log[..end - 1];
      T.StepMonotone(s.log[end - 1].at, t1);
    }
  }

  /** Between enrolments at most step(t1) - step(t0) + 3 codes succeed from time t0 to time t1. */
  lemma SuccessesBounded(s: State, from: nat, end: nat, u: U.UserId, t0: int, t1: int)
    requires LogSound(s) && from <= end <= |s.log| && NoEnrolment(s.log, from, end, u)
    requires t0 <= t1 && forall k :: from <= k < end ==> t0 <= s.log[k].at <= t1
    ensures Successes(s.log, from, end, u) <= T.Step(t1) - T.Step(t0) + 3
  {
    forall k | from <= k < end ensures T.Step(t0) - 1 <= T.Step(s.log[k].at) - 1 {
      T.StepMonotone(t0, s.log[k].at);
    }
    T.StepMonotone(t0, t1);
    StepsClimb(s, from, end, u, T.Step(t0) - 1);
    LastStepRecent(s, from, end, u, t1);
  }

  /** Between enrolments no step is accepted twice, and later codes are for later steps. */
  lemma {:induction false} StepsIncrease(s: State, i: nat, j: nat, u: U.UserId)
    requires LogSound(s) && i < j < |s.log| && NoEnrolment(s.log, i, j, u)
    requires s.log[i].Accepted? && s.log[i].user == u && s.log[j].Accepted? && s.log[j].user == u
    ensures s.log[i].step < s.log[j].step
  {
    assert EntrySound(s.log, j);
    LastAtLeast(s, i, j, u);
  }

  lemma {:induction false} LastAtLeast(s: State, i: nat, j: nat, u: U.UserId)
    requires LogSound(s) && i < j <= |s.log| && NoEnrolment(s.log, i, j, u)
    requires s.log[i].Accepted? && s.log[i].user == u
    ensures LastAccepted(s.log[..j], u).Some? && LastAccepted(s.log[..j], u).value >= s.log[i].step
    decreases j
  {
    assert s.log[..j][..j - 1] == s.log[..j - 1];
    if i < j - 1 {
      LastAtLeast(s, i, j - 1, u);
      assert EntrySound(s.log, j - 1);
    }
  }

  // ---------------------------------------------------------------- wrong codes

  /** The codes of u compared and found wrong in log[from..]. */
  ghost function Misses(log: seq<Entry>, from: nat, u: U.UserId): nat
    requires from <= |log|
    decreases |log|
  {
    if from == |log| then 0
    else Misses(log[..|log| - 1], from, u) + if log[|log| - 1] == Rejected(u, log[|log| - 1].at) then 1 else 0
  }

  ghost predicate OnlyMisses(log: seq<Entry>, from: nat, u: U.UserId)
    requires from <= |log|
  {
    forall k :: from <= k < |log| && log[k].user == u ==> log[k].Rejected?
  }

  /** How many misses a counter at f admits before the next one locks. */
  function Allowance(failures: nat): nat {
    if failures >= MAX_FAILURES - 1 then 1 else MAX_FAILURES - failures
  }

  /** The counter counts the misses, and each lock pays for one more. */
  ghost predicate MissesPaid(s0: State, s: State, u: U.UserId) {
    && s0.now <= s.now && s0.log <= s.log
    && var f0 := FactorOf(s0, u).failures; var f := FactorOf(s, u);
    && var w := Misses(s.log, |s0.log|, u);
    && f.failures == f0 + w
    && (w >= 1 && f.failures >= MAX_FAILURES ==>
        && f.lockedUntil.Some?
        && s0.now <= f.lockedUntil.value - LOCKOUT <= s.now
        && w <= Allowance(f0) + (f.lockedUntil.value - LOCKOUT - s0.now) / LOCKOUT)
  }

  lemma MissesAppend(log: seq<Entry>, e: Entry, from: nat, u: U.UserId)
    requires from <= |log|
    ensures Misses(log + [e], from, u) == Misses(log, from, u) + if e == Rejected(u, e.at) then 1 else 0
  {
    assert (log + [e])[..|log|] == log;
  }

  /** A miss while not locked out. */
  lemma MissIsPaid(s0: State, s: State, s': State, u: U.UserId)
    requires MissesPaid(s0, s, u) && !LockedOut(FactorOf(s, u), s.now)
    requires s'.log == s.log + [Rejected(u, s.now)] && s'.now == s.now && FactorOf(s', u) == AfterMiss(FactorOf(s, u), s.now)
    ensures MissesPaid(s0, s', u)
  {
    MissesAppend(s.log, Rejected(u, s.now), |s0.log|, u);
  }

  lemma OtherIsPaid(s0: State, s: State, s': State, u: U.UserId)
    requires MissesPaid(s0, s, u) && s.now <= s'.now && FactorOf(s', u) == FactorOf(s, u)
    requires s'.log == s.log || (|s'.log| == |s.log| + 1 && s.log <= s'.log && s'.log[|s.log|].user != u)
    ensures MissesPaid(s0, s', u)
  {
    if s'.log != s.log {
      assert s'.log == s.log + [s'.log[|s.log|]];
      MissesAppend(s.log, s'.log[|s.log|], |s0.log|, u);
    }
  }

  lemma StepIsPaid(s0: State, s: State, op: Op, u: U.UserId)
    requires MissesPaid(s0, s, u) && OnlyMisses(Apply(s, op).log, |s.log|, u)
    ensures MissesPaid(s0, Apply(s, op), u)
  {
    var s' := Apply(s, op);
    match op
    case Check(t, good, enrolling) =>
      if Refusal(s, t, enrolling).None? {
        var e := s'.log[|s.log|];
        if e.user == u { MissIsPaid(s0, s, s', u); } else { OtherIsPaid(s0, s, s', u); }
      }
    case Enroll(v) =>
      if s' != s {
        assert s'.log[|s.log|] == Enrolled(v, s.now);
        OtherIsPaid(s0, s, s', u);
      }
    case _ => OtherIsPaid(s0, s, s', u);
  }

  lemma {:induction false} RunIsPaid(s0: State, s: State, ops: seq<Op>, u: U.UserId)
    requires MissesPaid(s0, s, u) && LogGrows(s, ops) && OnlyMisses(Run(s, ops).log, |s.log|, u)
    ensures MissesPaid(s0, Run(s, ops), u)
    decreases |ops|
  {
    if ops != [] {
      var s1 := Apply(s, ops[0]);
      assert forall k :: |s.log| <= k < |s1.log| ==> s1.log[k] == Run(s, ops).log[k];
      StepIsPaid(s0, s, ops[0], u);
      RunIsPaid(s0, s1, ops[1..], u);
    }
  }

  /** Every step of the run appends to the log. */
  ghost predicate LogGrows(s: State, ops: seq<Op>)
    decreases |ops|
  {
    s.log <= Run(s, ops).log && (ops != [] ==> s.log <= Apply(s, ops[0]).log && LogGrows(Apply(s, ops[0]), ops[1..]))
  }

  lemma {:induction false} LogAlwaysGrows(s: State, ops: seq<Op>)
    ensures LogGrows(s, ops)
    decreases |ops|
  {
    if ops != [] { LogAlwaysGrows(Apply(s, ops[0]), ops[1..]); }
  }

  lemma NothingToPay(s: State, u: U.UserId)
    ensures MissesPaid(s, s, u)
  {
  }

  lemma LockoutsMonotone(a: int, b: int)
    requires a <= b
    ensures a / LOCKOUT <= b / LOCKOUT
  {
  }

  lemma PaidIsBounded(s0: State, s: State, u: U.UserId)
    requires MissesPaid(s0, s, u)
    ensures Misses(s.log, |s0.log|, u) <= Allowance(FactorOf(s0, u).failures) + (s.now - s0.now) / LOCKOUT
  {
    var f := FactorOf(s, u);
    if Misses(s.log, |s0.log|, u) >= 1 && f.failures >= MAX_FAILURES {
      LockoutsMonotone(f.lockedUntil.value - LOCKOUT - s0.now, s.now - s0.now);
    }
  }

  /**
   In a run without a success or a re-enrolment of u, at most five wrong codes,
   and one more for each full lockout period, are ever compared.
   */
  lemma WrongCodesBounded(s: State, ops: seq<Op>, u: U.UserId)
    requires s.log <= Run(s, ops).log && OnlyMisses(Run(s, ops).log, |s.log|, u)
    ensures s.now <= Run(s, ops).now
    ensures Misses(Run(s, ops).log, |s.log|, u) <=
      Allowance(FactorOf(s, u).failures) + (Run(s, ops).now - s.now) / LOCKOUT
  {
    LogAlwaysGrows(s, ops);
    NothingToPay(s, u);
    RunIsPaid(s, s, ops, u);
    PaidIsBounded(s, Run(s, ops), u);
  }

  /** An enrolled administrator who is not locked out; the counter may stand anywhere. */
  ghost predicate ReadyToMiss(s: State, u: U.UserId) {
    LiveAdmin(s, u) && FactorOf(s, u).secret && FactorOf(s, u).enabled && !LockedOut(FactorOf(s, u), s.now)
  }

  function MissOps(s: State, u: U.UserId): seq<Op> {
    [Login(u, true), Check(|s.sessions|, {}, false)]
  }

  /** A wrong code is compared, counted, and locks for a whole period once the counter is at the limit. */
  lemma OneMiss(s: State, u: U.UserId)
    requires ReadyToMiss(s, u)
    ensures var s' := Run(s, MissOps(s, u));
      && s'.log == s.log + [Rejected(u, s.now)] && s'.now == s.now && s'.dir == s.dir
      && FactorOf(s', u) == AfterMiss(FactorOf(s, u), s.now)
      && (FactorOf(s', u).lockedUntil == Some(s.now + LOCKOUT) <==> FactorOf(s, u).failures + 1 >= MAX_FAILURES)
      && (AnswerTo(Apply(s, Login(u, true)), Check(|s.sessions|, {}, false)) == Locked <==> FactorOf(s, u).failures + 1 >= MAX_FAILURES)
  {
    var s1 := Apply(s, Login(u, true));
    assert Resolves(s1, |s.sessions|);
    var s2 := Apply(s1, Check(|s.sessions|, {}, false));
    RunTwo(s, Login(u, true), Check(|s.sessions|, {}, false));
  }

  lemma RunTwo(s: State, a: Op, b: Op)
    ensures Run(s, [a, b]) == Apply(Apply(s, a), b)
  {
    assert [a, b][1..] == [b];
    assert [b][1..] == [];
    assert Run(Apply(s, a), [b]) == Run(Apply(Apply(s, a), b), []);
  }

  lemma {:induction false} RunConcat(s: State, a: seq<Op>, b: seq<Op>)
    ensures Run(s, a + b) == Run(Run(s, a), b)
    decreases |a|
  {
    if a == [] { assert a + b == b; } else {
      assert (a + b)[1..] == a[1..] + b;
      RunConcat(Apply(s, a[0]), a[1..], b);
    }
  }

  /** Whatever misses are allowed at once, the last of them locks. */
  ghost predicate LockedByMisses(s: State, s': State, u: U.UserId, misses: nat) {
    && s.log <= s'.log && OnlyMisses(s'.log, |s.log|, u) && Misses(s'.log, |s.log|, u) == misses
    && s'.dir == s.dir && FactorOf(s', u).secret && FactorOf(s', u).enabled
    && FactorOf(s', u).failures >= MAX_FAILURES && FactorOf(s', u).lockedUntil == Some(s'.now + LOCKOUT)
  }

  /** Up to the lock, wrong codes may follow each other at once. */
  lemma {:induction false} MissesAtOnce(s0: State, s: State, u: U.UserId) returns (ops: seq<Op>)
    requires ReadyToMiss(s, u) && s0.dir == s.dir && s0.log <= s.log && OnlyMisses(s.log, |s0.log|, u)
    ensures LockedByMisses(s0, Run(s, ops), u, Misses(s.log, |s0.log|, u) + Allowance(FactorOf(s, u).failures))
    ensures Run(s, ops).now == s.now
    decreases MAX_FAILURES - FactorOf(s, u).failures
  {
    var s1 := Run(s, MissOps(s, u));
    OneMiss(s, u);
    MissesAppend(s.log, Rejected(u, s.now), |s0.log|, u);
    if FactorOf(s, u).failures + 1 >= MAX_FAILURES {
      ops := MissOps(s, u);
    } else {
      var rest := MissesAtOnce(s0, s1, u);
      ops := MissOps(s, u) + rest;
      RunConcat(s, MissOps(s, u), rest);
    }
  }

  lemma RunOne(s: State, op: Op, rest: seq<Op>)
    ensures Run(s, [op] + rest) == Run(Apply(s, op), rest)
  {
    assert ([op] + rest)[1..] == rest;
  }

  /** The lock lapses and leaves the counter at the limit, so one more wrong code is compared and locks again. */
  lemma OneMorePerLockout(s: State, s1: State, u: U.UserId, misses: nat) returns (ops: seq<Op>)
    requires LiveAdmin(s, u) && LockedByMisses(s, s1, u, misses)
    ensures LockedByMisses(s, Run(s1, ops), u, misses + 1) && Run(s1, ops).now == s1.now + LOCKOUT
  {
    var s2 := Apply(s1, Tick(LOCKOUT));
    var miss := MissesAtOnce(s, s2, u);
    ops := [Tick(LOCKOUT)] + miss;
    RunOne(s1, Tick(LOCKOUT), miss);
  }

  /** The bound is reached from any counter: waiting out n lockouts gets n more wrong codes compared. */
  lemma {:induction false} WrongCodesReached(s: State, u: U.UserId, n: nat) returns (ops: seq<Op>)
    requires ReadyToMiss(s, u)
    ensures LockedByMisses(s, Run(s, ops), u, Allowance(FactorOf(s, u).failures) + n)
    ensures Run(s, ops).now == s.now + n * LOCKOUT
    decreases n
  {
    if n == 0 {
      ops := MissesAtOnce(s, s, u);
    } else {
      var first := WrongCodesReached(s, u, n - 1);
      var more := OneMorePerLockout(s, Run(s, first), u, Allowance(FactorOf(s, u).failures) + n - 1);
      ops := first + more;
      RunConcat(s, first, more);
    }
  }

  // ---------------------------------------------------------------- the service

  /** auth.Service as the back office uses it. */
  class Service {
    var now: int
    var dir: U.State
    var factors: map<U.UserId, Factor>
    var sessions: seq<Session>
    ghost var log: seq<Entry>
    ghost var signins: map<SessionId, U.UserId>

    ghost function View(): State
      reads this
    {
      State(now, dir, factors, sessions, log, signins)
    }

    constructor (startTime: int, users: U.State)
      ensures View() == State(startTime, users, map[], [], [], map[])
      ensures SessionsSound(View()) && VerifiedByCode(View()) && LogSound(View()) && SignedIn(View())
    {
      now, dir, factors, sessions, log, signins := startTime, users, map[], [], [], map[];
    }

    /** insertAdminSession: a pending session for ten minutes, a verified one for the session lifetime. */
    method InsertSession(user: U.UserId, verified: bool, parent: Option<SessionId>) returns (token: SessionId)
      modifies this`sessions
      ensures token == |old(sessions)|
      ensures sessions == old(sessions) +
        [Session(user, now + if verified then SESSION_TTL else PENDING_TTL, verified, false, parent)]
    {
      token := |sessions|;
      var expires := now + PENDING_TTL;
      if verified {
        expires := now + SESSION_TTL;
      }
      sessions := sessions + [Session(user, expires, verified, false, parent)];
    }

    /** AdminLogin: every refusal looks the same. */
    method AdminLogin(user: U.UserId, passwordOk: bool) returns (a: Answer)
      modifies this
      ensures now == old(now) && dir == old(dir)
      ensures View() == Apply(old(View()), Login(user, passwordOk)) && a == AnswerTo(old(View()), Login(user, passwordOk))
      ensures a.Opened? <==>
        passwordOk && user in dir.users && dir.users[user].role == U.Admin && dir.users[user].status == U.ACTIVE
      ensures a.Opened? ==>
        && a.session == |old(sessions)|
        && sessions == old(sessions) + [Session(user, now + PENDING_TTL, false, false, None)]
      ensures !a.Opened? ==> a == InvalidCredentials && sessions == old(sessions)
      ensures factors == old(factors) && dir == old(dir)
    {
      if user !in dir.users || !passwordOk || dir.users[user].role != U.Admin || dir.users[user].status != U.ACTIVE {
        return InvalidCredentials;
      }
      signins := SignIn(View(), user, passwordOk);
      var token := InsertSession(user, false, None);
      a := Opened(token);
    }

    /** AdminSession: whose session the token is, if it is alive. */
    method AdminSession(token: SessionId) returns (user: Option<U.UserId>)
      ensures user.Some? <==> Resolves(View(), token)
      ensures user.Some? <==>
        && token < |sessions| && !sessions[token].revoked && now < sessions[token].expires
        && var u := sessions[token].user;
           u in dir.users && dir.users[u].role == U.Admin && dir.users[u].status == U.ACTIVE
      ensures user.Some? ==> user.value == sessions[token].user
    {
      if token >= |sessions| {
        return None;
      }
      var row := sessions[token];
      if row.revoked || row.expires <= now {
        return None;
      }
      if row.user !in dir.users || dir.users[row.user].role != U.Admin || dir.users[row.user].status != U.ACTIVE {
        return None;
      }
      user := Some(row.user);
    }

    /** checkCode, for TOTPConfirm (enrolling) and TOTPVerify. */
    method CheckCode(token: SessionId, good: set<int>, enrolling: bool) returns (a: Answer)
      modifies this
      ensures now == old(now) && dir == old(dir)
      ensures View() == Apply(old(View()), Check(token, good, enrolling))
      ensures a == AnswerTo(old(View()), Check(token, good, enrolling))
      ensures a == InvalidToken <==> !Alive(old(now), old(dir), old(sessions), token)
      ensures a == InvalidToken ==> View() == old(View())
      ensures Alive(old(now), old(dir), old(sessions), token) ==>
        var u := old(sessions)[token].user; var f := FactorIn(old(factors), u);
        var locked := f.lockedUntil.Some? && now < f.lockedUntil.value;
        && (a == AlreadyEnabled <==> enrolling && f.enabled)
        && (a == NotEnrolled <==> !(enrolling && f.enabled) && ((!enrolling && !f.enabled) || !f.secret))
        && if enrolling != f.enabled && f.secret && !locked
           then Compared(old(factors), old(sessions), token, u, f, T.Match(good, now), a)
           else View() == old(View()) && (a == Locked <==> enrolling != f.enabled && f.secret)
    {
      var user := AdminSession(token);
      if user.None? {
        return InvalidToken;
      }
      var f := FactorIn(factors, user.value);
      if enrolling && f.enabled {
        return AlreadyEnabled;
      }
      if (!enrolling && !f.enabled) || !f.secret {
        return NotEnrolled;
      }
      if f.lockedUntil.Some? && f.lockedUntil.value > now {
        return Locked;
      }
      a := CompareCode(token, good, enrolling);
    }

    /** The code itself: a match for a step already spent is a wrong one. */
    method CompareCode(token: SessionId, good: set<int>, enrolling: bool) returns (a: Answer)
      requires Refusal(View(), token, enrolling).None?
      modifies this
      ensures now == old(now) && dir == old(dir)
      ensures View() == Apply(old(View()), Check(token, good, enrolling))
      ensures a == AnswerTo(old(View()), Check(token, good, enrolling))
      ensures var u := old(sessions)[token].user;
        Compared(old(factors), old(sessions), token, u, FactorIn(old(factors), u), T.Match(good, now), a)
    {
      var user := sessions[token].user;
      var f := FactorIn(factors, user);
      var step := T.Match(good, now);
      if step.Some? && f.lastStep.Some? && step.value <= f.lastStep.value {
        step := None;
      }
      if step.None? {
        a := RecordFailure(user);
        return;
      }
      factors := factors[user := AfterHit(f, step.value, enrolling)];
      sessions := RevokeOne(sessions, token);
      var next := InsertSession(user, true, Some(token));
      log := log + [Accepted(user, now, step.value, next)];
      a := Opened(next);
    }

    /**
     What comparing a code does. A new step: the factor is clean and the step spent,
     the carrying session dead, one verified session opened. Otherwise: one more
     failure, and a lock at the limit.
     */
    ghost predicate Compared(factors0: map<U.UserId, Factor>, sessions0: seq<Session>, token: SessionId, u: U.UserId, f: Factor,
                             matched: Option<int>, a: Answer)
      requires token < |sessions0|
      reads this
    {
      if matched.None? || (f.lastStep.Some? && matched.value <= f.lastStep.value) then
        && a == (if f.failures + 1 >= MAX_FAILURES then Locked else InvalidCode)
        && sessions == sessions0
        && factors == factors0[u := Factor(f.secret, f.enabled, f.failures + 1,
            if f.failures + 1 >= MAX_FAILURES then Some(now + LOCKOUT) else f.lockedUntil, f.lastStep)]
      else
        && a == Opened(|sessions0|)
        && factors == factors0[u := Factor(f.secret, true, 0, None, Some(matched.value))]
        && sessions == sessions0[token := sessions0[token].(revoked := true)] +
            [Session(u, now + SESSION_TTL, true, false, Some(token))]
    }

    /** A live session of a live administrator. */
    static ghost predicate Alive(now: int, dir: U.State, sessions: seq<Session>, token: SessionId) {
      && token < |sessions| && !sessions[token].revoked && now < sessions[token].expires
      && var u := sessions[token].user;
         u in dir.users && dir.users[u].role == U.Admin && dir.users[u].status == U.ACTIVE
    }

    /** recordTOTPFailure: count the miss, lock at the limit. */
    method RecordFailure(user: U.UserId) returns (a: Answer)
      modifies this`factors, this`log
      ensures factors == old(factors)[user := AfterMiss(FactorOf(old(View()), user), now)]
      ensures var f0 := FactorIn(old(factors), user);
        && user in factors && factors == old(factors)[user := factors[user]]
        && factors[user].failures == f0.failures + 1
        && factors[user].lockedUntil == (if f0.failures + 1 >= MAX_FAILURES then Some(now + LOCKOUT) else f0.lockedUntil)
        && factors[user].secret == f0.secret && factors[user].enabled == f0.enabled && factors[user].lastStep == f0.lastStep
      ensures log == old(log) + [Rejected(user, now)]
      ensures a == if LockedOut(FactorOf(View(), user), now) then Locked else InvalidCode
    {
      var f := FactorIn(factors, user);
      var lock := f.lockedUntil;
      if f.failures + 1 >= MAX_FAILURES {
        lock := Some(now + LOCKOUT);
      }
      factors := factors[user := f.(failures := f.failures + 1, lockedUntil := lock)];
      log := log + [Rejected(user, now)];
      a := if lock.Some? && lock.value > now then Locked else InvalidCode;
    }

    /** AdminLogout: unknown tokens are not an error. */
    method AdminLogout(token: SessionId)
      modifies this
      ensures now == old(now) && dir == old(dir)
      ensures View() == Apply(old(View()), Logout(token))
      ensures |sessions| == |old(sessions)| && factors == old(factors) && dir == old(dir)
      ensures token < |sessions| ==> sessions[token] == old(sessions)[token].(revoked := true)
      ensures forall i :: 0 <= i < |sessions| && i != token ==> sessions[i] == old(sessions)[i]
    {
      if token >= |sessions| {
        return;
      }
      sessions := RevokeOne(sessions, token);
    }

    /** EnrollTOTP: a fresh secret, everything about the old one forgotten, every session ended. */
    method EnrollTotp(user: U.UserId) returns (a: Answer)
      modifies this
      ensures now == old(now) && dir == old(dir)
      ensures View() == Apply(old(View()), Enroll(user)) && a == AnswerTo(old(View()), Enroll(user))
      ensures a == NotFound <==> user !in dir.users
      ensures a == NotAdmin <==> user in dir.users && dir.users[user].role != U.Admin
      ensures a == Done <==> user in dir.users && dir.users[user].role == U.Admin
      ensures a != Done ==> View() == old(View())
      ensures a == Done ==>
        && factors == old(factors)[user := Factor(true, false, 0, None, None)] && |sessions| == |old(sessions)|
        && forall i :: 0 <= i < |sessions| ==>
            sessions[i] == if old(sessions)[i].user == user then old(sessions)[i].(revoked := true) else old(sessions)[i]
    {
      if user !in dir.users {
        return NotFound;
      }
      if dir.users[user].role != U.Admin {
        return NotAdmin;
      }
      factors := factors[user := Factor(true, false, 0, None, None)];
      sessions := RevokeAll(sessions, user);
      log := log + [Enrolled(user, now)];
      a := Done;
    }
  }
}
