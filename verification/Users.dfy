/**
 The user directory and its spot accounts (internal/auth/users.go, and the
 writes of internal/admin/writes.go and internal/auth/service.go that touch
 them). Each operation is one transaction; operations run one after the other.
 Ids are random, so an id that is already in use anywhere is a failed insert.
 */
module Users {
  import opened Options

  type UserId = nat
  type AccountId = nat

  const ACTIVE := "active"
  const FROZEN := "frozen"
  const MAX_KYC_LEVEL := 2

  datatype Role = Customer | Admin
  datatype User = User(email: string, role: Role, status: string, kycLevel: int, version: nat)

  /** Accounts in creation order; `owner` is empty for accounts opened for nobody. */
  datatype Account = Account(owner: Option<UserId>, status: string)

  /** user.status_updated and user.kyc_level_updated. */
  datatype Event = StatusUpdated(user: UserId, version: nat, status: string, previous: string)
                 | KycUpdated(user: UserId, version: nat, level: int, previousLevel: int)

  datatype State = State(users: map<UserId, User>, accounts: seq<Account>, events: seq<Event>)

  datatype Op =
    | Open(id: UserId, email: string, role: Role)          // Register and BootstrapAdmin
    | SetStatus(id: UserId, status: string)
    | SetKyc(id: UserId, level: int)
    | CreateAccount(owner: Option<UserId>)
    | SetAccountStatus(account: AccountId, status: string)

  datatype Error = NotFound | InvalidInput | EmailTaken | LastAdmin | IdInUse
  datatype Result = Done | Unchanged | Refused(e: Error) | Failed

  // ---------------------------------------------------------------- queries

  predicate ValidStatus(status: string) {
    status == ACTIVE || status == FROZEN
  }

  function ActiveAdmins(users: map<UserId, User>): set<UserId> {
    set u | u in users && users[u].role == Admin && users[u].status == ACTIVE
  }

  predicate EmailUsed(users: map<UserId, User>, email: string) {
    exists u :: u in users && users[u].email == email
  }

  /** SpotAccountOf: the oldest account with that owner. */
  function SpotAccountOf(accounts: seq<Account>, u: UserId): (r: Option<AccountId>)
    ensures r.Some? ==>
      && r.value < |accounts| && accounts[r.value].owner == Some(u)
      && forall i :: 0 <= i < r.value ==> accounts[i].owner != Some(u)
    ensures r.None? ==> forall i :: 0 <= i < |accounts| ==> accounts[i].owner != Some(u)
  {
    if accounts == [] then None
    else
      var earlier := SpotAccountOf(accounts[..|accounts| - 1], u);
      if earlier.Some? then earlier
      else if accounts[|accounts| - 1].owner == Some(u) then Some(|accounts| - 1)
      else None
  }

  // ---------------------------------------------------------------- operations

  function CheckStatus(s: State, id: UserId, status: string): Result {
    if !ValidStatus(status) then Refused(InvalidInput)
    else if id !in s.users then Refused(NotFound)
    else if s.users[id].status == status then Unchanged
    else if status == FROZEN && s.users[id].role == Admin && |ActiveAdmins(s.users)| <= 1 then Refused(LastAdmin)
    else Done
  }

  function CheckKyc(s: State, id: UserId, level: int): Result {
    if level < 0 || level > MAX_KYC_LEVEL then Refused(InvalidInput)
    else if id !in s.users then Refused(NotFound)
    else if s.users[id].kycLevel == level then Unchanged
    else Done
  }

  function ResultOf(s: State, op: Op): Result {
    match op
    case Open(id, email, _) =>
      if EmailUsed(s.users, email) then Refused(EmailTaken)
      else if id in s.users || SpotAccountOf(s.accounts, id).Some? then Refused(IdInUse)
      else Done
    case SetStatus(id, status) => CheckStatus(s, id, status)
    case SetKyc(id, level) => CheckKyc(s, id, level)
    case CreateAccount(_) => Done
    case SetAccountStatus(a, status) =>
      if !ValidStatus(status) then Refused(InvalidInput) else if a >= |s.accounts| then Refused(NotFound) else Done
  }

  function FreezeAccount(accounts: seq<Account>, u: UserId, status: string): seq<Account> {
    var a := SpotAccountOf(accounts, u);
    if a.None? then accounts else accounts[a.value := accounts[a.value].(status := status)]
  }

  function Apply(s: State, op: Op): State {
    if ResultOf(s, op) != Done then s
    else match op
      case Open(id, email, role) =>
        s.(users := s.users[id := User(email, role, ACTIVE, 0, 1)], accounts := s.accounts + [Account(Some(id), ACTIVE)])
      case SetStatus(id, status) =>
        var u := s.users[id];
        State(s.users[id := u.(status := status, version := u.version + 1)],
              FreezeAccount(s.accounts, id, status),
              s.events + [StatusUpdated(id, u.version + 1, status, u.status)])
      case SetKyc(id, level) =>
        var u := s.users[id];
        s.(users := s.users[id := u.(kycLevel := level, version := u.version + 1)],
           events := s.events + [KycUpdated(id, u.version + 1, level, u.kycLevel)])
      case CreateAccount(owner) => s.(accounts := s.accounts + [Account(owner, ACTIVE)])
      case SetAccountStatus(a, status) => s.(accounts := s.accounts[a := s.accounts[a].(status := status)])
  }

  /** SetUserStatus ends an administrator's sessions in the same transaction. */
  predicate EndsSessions(s: State, op: Op, u: UserId) {
    op.SetStatus? && op.id == u && op.status == FROZEN && ResultOf(s, op) == Done && s.users[u].role == Admin
  }

  function Run(s: State, ops: seq<Op>): State
    decreases |ops|
  {
    if ops == [] then s else Run(Apply(s, ops[0]), ops[1..])
  }

  // ---------------------------------------------------------------- the last administrator

  lemma SomeoneElse(admins: set<UserId>, u: UserId)
    ensures u in admins ==> (|admins| >= 2 <==> exists v :: v in admins && v != u)
  {
    if u in admins {
      assert |admins - {u}| == |admins| - 1;
      if |admins| >= 2 {
        var v :| v in admins - {u};
        assert v in admins && v != u;
      } else {
        assert admins - {u} == {};
        assert forall v :: v in admins && v != u ==> v in admins - {u};
      }
    }
  }

  /** Freezing an active administrator is refused exactly when no other one is active. */
  lemma RefusedIffLast(s: State, id: UserId)
    requires id in ActiveAdmins(s.users)
    ensures ResultOf(s, SetStatus(id, FROZEN)) == Refused(LastAdmin) <==> ActiveAdmins(s.users) == {id}
    ensures ResultOf(s, SetStatus(id, FROZEN)) == Done <==> ActiveAdmins(s.users) != {id}
  {
    SomeoneElse(ActiveAdmins(s.users), id);
    assert ActiveAdmins(s.users) == {id} ==> |ActiveAdmins(s.users)| == 1;
  }

  lemma StepKeepsAdmin(s: State, op: Op)
    requires ActiveAdmins(s.users) != {}
    ensures ActiveAdmins(Apply(s, op).users) != {}
  {
    var s' := Apply(s, op);
    var v :| v in ActiveAdmins(s.users);
    if s' != s && op.SetStatus? && op.status == FROZEN && op.id == v {
      SomeoneElse(ActiveAdmins(s.users), v);
      var w :| w in ActiveAdmins(s.users) && w != v;
      assert w in ActiveAdmins(s'.users);
    } else {
      assert v in ActiveAdmins(s'.users);
    }
  }

  // ---------------------------------------------------------------- accounts follow users

  ghost predicate AccountsFollow(s: State) {
    forall u :: u in s.users ==>
      SpotAccountOf(s.accounts, u).Some? && s.accounts[SpotAccountOf(s.accounts, u).value].status == s.users[u].status
  }

  /** The oldest account stays the oldest. */
  lemma {:induction false} SpotStays(a: seq<Account>, b: seq<Account>, u: UserId)
    requires |a| <= |b| && forall i :: 0 <= i < |a| ==> b[i].owner == a[i].owner
    ensures SpotAccountOf(a, u).Some? ==> SpotAccountOf(b, u) == SpotAccountOf(a, u)
    ensures |a| == |b| ==> SpotAccountOf(b, u) == SpotAccountOf(a, u)
  {
  }

  lemma StepKeepsAccounts(s: State, op: Op)
    requires AccountsFollow(s) && !op.SetAccountStatus?
    ensures AccountsFollow(Apply(s, op))
  {
    var s' := Apply(s, op);
    if s' != s {
      forall u | u in s'.users
        ensures SpotAccountOf(s'.accounts, u).Some?
        ensures s'.accounts[SpotAccountOf(s'.accounts, u).value].status == s'.users[u].status
      {
        SpotStays(s.accounts, s'.accounts, u);
        if op.Open? && op.id == u {
          assert s'.accounts[|s.accounts|].owner == Some(u);
        } else if op.SetStatus? && op.id != u {
          var a := SpotAccountOf(s.accounts, op.id);
          assert a.Some? ==> a.value != SpotAccountOf(s.accounts, u).value;
        }
      }
    }
  }

  ghost predicate AllAccountsAre(s: State, u: UserId, status: string) {
    forall i :: 0 <= i < |s.accounts| && s.accounts[i].owner == Some(u) ==> s.accounts[i].status == status
  }

  /**
   A status edit reaches the user's spot account only: every account of the user
   has the new status afterwards exactly when the others already had it.
   */
  lemma EditReachesAllIff(s: State, id: UserId, status: string)
    requires ResultOf(s, SetStatus(id, status)) == Done
    ensures AllAccountsAre(Apply(s, SetStatus(id, status)), id, status) <==>
      forall i :: 0 <= i < |s.accounts| && s.accounts[i].owner == Some(id) && Some(i) != SpotAccountOf(s.accounts, id) ==>
        s.accounts[i].status == status
  {
    var s' := Apply(s, SetStatus(id, status));
    assert |s'.accounts| == |s.accounts|;
    forall i | 0 <= i < |s.accounts|
      ensures s'.accounts[i] == if Some(i) == SpotAccountOf(s.accounts, id) then s.accounts[i].(status := status) else s.accounts[i]
    {
    }
  }

  /** What the edits of accounts do: a new one is active and touches no other, a status edit touches one. */
  lemma AccountEdits(s: State, owner: Option<UserId>, a: AccountId, status: string)
    ensures Apply(s, CreateAccount(owner)) == s.(accounts := s.accounts + [Account(owner, ACTIVE)])
    ensures var s' := Apply(s, SetAccountStatus(a, status));
      && s'.users == s.users && s'.events == s.events && |s'.accounts| == |s.accounts|
      && forall i :: 0 <= i < |s.accounts| ==>
          && s'.accounts[i].owner == s.accounts[i].owner
          && s'.accounts[i].status == if i == a && (status == ACTIVE || status == FROZEN) then status else s.accounts[i].status
  {
  }

  // ---------------------------------------------------------------- event versions

  ghost predicate EventsSound(s: State) {
    && (forall i :: 0 <= i < |s.events| ==>
        s.events[i].user in s.users && s.events[i].version <= s.users[s.events[i].user].version)
    && (forall i, j :: 0 <= i < j < |s.events| && s.events[i].user == s.events[j].user ==>
        s.events[i].version < s.events[j].version)
  }

  lemma StepKeepsEvents(s: State, op: Op)
    requires EventsSound(s)
    ensures EventsSound(Apply(s, op))
  {
  }

  /**
   Every run of registrations, bootstraps and edits keeps an administrator able to
   sign in and orders each user's events by version; unless an account's status is
   edited directly, spot accounts that have their users' statuses keep them.
   */
  lemma {:induction false} EveryRunKeepsTheDirectory(s: State, ops: seq<Op>)
    requires ActiveAdmins(s.users) != {} && EventsSound(s)
    ensures ActiveAdmins(Run(s, ops).users) != {} && EventsSound(Run(s, ops))
    ensures exists u :: u in Run(s, ops).users && Run(s, ops).users[u].role == Admin && Run(s, ops).users[u].status == ACTIVE
    ensures AccountsFollow(s) && (forall i :: 0 <= i < |ops| ==> !ops[i].SetAccountStatus?) ==> AccountsFollow(Run(s, ops))
    decreases |ops|
  {
    if ops != [] {
      StepKeepsAdmin(s, ops[0]);
      StepKeepsEvents(s, ops[0]);
      if AccountsFollow(s) && !ops[0].SetAccountStatus? { StepKeepsAccounts(s, ops[0]); }
      EveryRunKeepsTheDirectory(Apply(s, ops[0]), ops[1..]);
    } else {
      var u :| u in ActiveAdmins(s.users);
      assert u in s.users && s.users[u].role == Admin && s.users[u].status == ACTIVE;
    }
  }

  // ---------------------------------------------------------------- the directory

  class Directory {
    var users: map<UserId, User>
    var accounts: seq<Account>
    var events: seq<Event>

    ghost function View(): State
      reads this
    {
      State(users, accounts, events)
    }

    constructor ()
      ensures View() == State(map[], [], [])
    {
      users, accounts, events := map[], [], [];
    }

    /** Register and BootstrapAdmin up to the session: a user and a spot account together. */
    method OpenUser(id: UserId, email: string, role: Role) returns (r: Result)
      modifies this
      ensures View() == Apply(old(View()), Open(id, email, role)) && r == ResultOf(old(View()), Open(id, email, role))
      ensures r == Refused(EmailTaken) <==> exists u :: u in old(users) && old(users)[u].email == email
      ensures r == Done <==>
        && (forall u :: u in old(users) ==> u != id && old(users)[u].email != email)
        && (forall i :: 0 <= i < |old(accounts)| ==> old(accounts)[i].owner != Some(id))
      ensures r != Done ==> users == old(users) && accounts == old(accounts) && r.Refused?
      ensures r == Done ==>
        && users == old(users)[id := User(email, role, ACTIVE, 0, 1)]
        && accounts == old(accounts) + [Account(Some(id), ACTIVE)]
      ensures events == old(events)
    {
      if EmailUsed(users, email) {
        return Refused(EmailTaken);
      }
      if id in users || SpotAccountOf(accounts, id).Some? {
        return Refused(IdInUse);
      }
      users := users[id := User(email, role, ACTIVE, 0, 1)];
      accounts := accounts + [Account(Some(id), ACTIVE)];
      r := Done;
    }

    /** auth.SetUserStatus: the user row alone; `ended` says whether sessions were revoked with it. */
    method SetUserStatus(id: UserId, status: string) returns (r: Result, before: User, ended: bool)
      modifies this`users
      ensures r == CheckStatus(old(View()), id, status)
      ensures r == Refused(InvalidInput) <==> status != ACTIVE && status != FROZEN
      ensures r == Refused(NotFound) <==> (status == ACTIVE || status == FROZEN) && id !in old(users)
      ensures r == Unchanged <==> id in old(users) && (status == ACTIVE || status == FROZEN) && old(users)[id].status == status
      ensures r == Refused(LastAdmin) <==>
        && id in old(users) && status == FROZEN && old(users)[id].status != FROZEN && old(users)[id].role == Admin
        && |ActiveAdmins(old(users))| <= 1
      ensures id in old(users) && status == FROZEN && old(users)[id].status == ACTIVE && old(users)[id].role == Admin ==>
        (r == Refused(LastAdmin) <==>
          forall v :: v in old(users) && v != id ==> old(users)[v].role != Admin || old(users)[v].status != ACTIVE)
      ensures r == Done || r == Unchanged || r.Refused?
      ensures ended <==> r == Done && status == FROZEN && old(users)[id].role == Admin
      ensures r == Done ==> id in old(users) && before == old(users)[id]
      ensures r == Done ==> users == old(users)[id := before.(status := status, version := before.version + 1)]
      ensures r != Done ==> users == old(users)
      ensures ended <==> EndsSessions(old(View()), SetStatus(id, status), id)
    {
      before, ended := User("", Customer, "", 0, 0), false;
      SomeoneElse(ActiveAdmins(users), id);
      assert forall v :: v in ActiveAdmins(users) <==> v in users && users[v].role == Admin && users[v].status == ACTIVE;
      if status != ACTIVE && status != FROZEN {
        return Refused(InvalidInput), before, ended;
      }
      if id !in users {
        return Refused(NotFound), before, ended;
      }
      before := users[id];
      if before.status == status {
        return Unchanged, before, ended;
      }
      if status == FROZEN && before.role == Admin {
        if |ActiveAdmins(users)| <= 1 {
          return Refused(LastAdmin), before, ended;
        }
        ended := true;
      }
      users := users[id := before.(status := status, version := before.version + 1)];
      r := Done;
    }

    /** The admin write around it: user, spot account and event in one transaction, or nothing when a statement fails. */
    method WriteStatus(id: UserId, status: string, fault: bool) returns (r: Result)
      modifies this
      ensures r == if fault && ResultOf(old(View()), SetStatus(id, status)) == Done then Failed
                   else ResultOf(old(View()), SetStatus(id, status))
      ensures View() == if r == Done then Apply(old(View()), SetStatus(id, status)) else old(View())
      ensures r == Done ==>
        && id in old(users) && var was := old(users)[id];
        && was.status != status && (status == ACTIVE || status == FROZEN)
        && users == old(users)[id := was.(status := status, version := was.version + 1)]
        && events == old(events) + [StatusUpdated(id, was.version + 1, status, was.status)]
        && |accounts| == |old(accounts)|
        && forall i :: 0 <= i < |accounts| ==>
            accounts[i] == if IsSpot(old(accounts), i, id) then old(accounts)[i].(status := status) else old(accounts)[i]
    {
      var before, ended;
      var rows := users;
      r, before, ended := SetUserStatus(id, status);
      if r != Done {
        return;
      }
      if fault {
        users := rows;
        return Failed;
      }
      var account := SpotAccountOf(accounts, id);
      if account.Some? {
        accounts := accounts[account.value := accounts[account.value].(status := status)];
      }
      events := events + [StatusUpdated(id, before.version + 1, status, before.status)];
    }

    /** The oldest account of a user. */
    static ghost predicate IsSpot(accounts: seq<Account>, i: int, u: UserId)
      requires 0 <= i < |accounts|
    {
      accounts[i].owner == Some(u) && forall j :: 0 <= j < i ==> accounts[j].owner != Some(u)
    }

    /** setUserKYCLevel around SetUserKYCLevel. */
    method WriteKyc(id: UserId, level: int, fault: bool) returns (r: Result)
      modifies this
      ensures r == if fault && ResultOf(old(View()), SetKyc(id, level)) == Done then Failed
                   else ResultOf(old(View()), SetKyc(id, level))
      ensures View() == if r == Done then Apply(old(View()), SetKyc(id, level)) else old(View())
      ensures r == Refused(InvalidInput) <==> !(0 <= level <= MAX_KYC_LEVEL)
      ensures r == Refused(NotFound) <==> 0 <= level <= MAX_KYC_LEVEL && id !in old(users)
      ensures r == Unchanged <==> 0 <= level <= MAX_KYC_LEVEL && id in old(users) && old(users)[id].kycLevel == level
      ensures r == Done <==> !fault && 0 <= level <= MAX_KYC_LEVEL && id in old(users) && old(users)[id].kycLevel != level
      ensures r == Done ==> var was := old(users)[id];
        && users == old(users)[id := was.(kycLevel := level, version := was.version + 1)]
        && events == old(events) + [KycUpdated(id, was.version + 1, level, was.kycLevel)] && accounts == old(accounts)
    {
      if level < 0 || level > MAX_KYC_LEVEL {
        return Refused(InvalidInput);
      }
      if id !in users {
        return Refused(NotFound);
      }
      var before := users[id];
      if before.kycLevel == level {
        return Unchanged;
      }
      if fault {
        return Failed;
      }
      users := users[id := before.(kycLevel := level, version := before.version + 1)];
      events := events + [KycUpdated(id, before.version + 1, level, before.kycLevel)];
      r := Done;
    }
  }
}
