/**
 Claiming deposit addresses (internal/chain/addresses.go, internal/chain/queries/chain.sql).

 Assign is up to three statements, and any number of calls interleave between
 them. The claim itself is two steps here: SKIP LOCKED picks the first free row
 no other claim holds, and writing the account checks the unique index on
 accounts. An address is the index of its row.
 */
module Addresses {
  import opened Options

  type AccountId = nat
  type Address = nat
  type CallId = nat

  datatype Call =
    | Claiming(account: AccountId)                  // found no address of its own
    | Holding(account: AccountId, row: Address)     // row locked, account not written yet
    | ReadingBack(account: AccountId)               // met the unique index

  datatype Answer = Got(address: Address) | PoolEmpty | LostRace
  datatype Finished = Finished(account: AccountId, answer: Answer)

  /** `pool[i]` is the account of address i, None while it is free. */
  datatype State = State(pool: seq<Option<AccountId>>, calls: map<CallId, Call>, done: seq<Finished>)

  datatype Step =
    | Refill                                 // the signer inserts a free row
    | Begin(call: CallId, account: AccountId)
    | Lock(call: CallId)
    | Write(call: CallId)
    | ReadBack(call: CallId)
    | Abandon(call: CallId)                  // any other database error

  // ---------------------------------------------------------------- SQL

  /** GetDepositAddressByAccount. */
  function Existing(pool: seq<Option<AccountId>>, a: AccountId): (r: Option<Address>)
    ensures r.Some? ==> r.value < |pool| && pool[r.value] == Some(a)
    ensures r.None? ==> forall i :: 0 <= i < |pool| ==> pool[i] != Some(a)
  {
    if pool == [] then None
    else if pool[|pool| - 1] == Some(a) then Some(|pool| - 1)
    else Existing(pool[..|pool| - 1], a)
  }

  predicate Held(calls: map<CallId, Call>, row: Address) {
    exists c :: c in calls && calls[c].Holding? && calls[c].row == row
  }

  predicate Claimable(s: State, i: Address) {
    i < |s.pool| && s.pool[i].None? && !Held(s.calls, i)
  }

  /** The inner SELECT of ClaimDepositAddress, looking from row i on. */
  function FirstClaimable(s: State, i: Address): (r: Option<Address>)
    requires i <= |s.pool|
    ensures r.Some? ==> Claimable(s, r.value) && forall j :: i <= j < r.value ==> !Claimable(s, j)
    ensures r.None? ==> forall j :: i <= j < |s.pool| ==> !Claimable(s, j)
    decreases |s.pool| - i
  {
    if i == |s.pool| then None
    else if Claimable(s, i) then Some(i)
    else FirstClaimable(s, i + 1)
  }

  // ---------------------------------------------------------------- steps

  function End(s: State, c: CallId, a: Answer): State
    requires c in s.calls
  {
    s.(calls := s.calls - {c}, done := s.done + [Finished(s.calls[c].account, a)])
  }

  function Apply(s: State, step: Step): State {
    match step
    case Refill => s.(pool := s.pool + [None])
    case Begin(c, a) =>
      if c in s.calls then s
      else
        var e := Existing(s.pool, a);
        if e.Some? then s.(done := s.done + [Finished(a, Got(e.value))])
        else s.(calls := s.calls[c := Claiming(a)])
    case Lock(c) =>
      if c !in s.calls || !s.calls[c].Claiming? then s
      else
        var row := FirstClaimable(s, 0);
        if row.None? then End(s, c, PoolEmpty)
        else s.(calls := s.calls[c := Holding(s.calls[c].account, row.value)])
    case Write(c) =>
      if c !in s.calls || !s.calls[c].Holding? || s.calls[c].row >= |s.pool| then s
      else
        var k := s.calls[c];
        if Existing(s.pool, k.account).Some? then s.(calls := s.calls[c := ReadingBack(k.account)])
        else End(s, c, Got(k.row)).(pool := s.pool[k.row := Some(k.account)])
    case ReadBack(c) =>
      if c !in s.calls || !s.calls[c].ReadingBack? then s
      else
        var e := Existing(s.pool, s.calls[c].account);
        End(s, c, if e.Some? then Got(e.value) else LostRace)
    case Abandon(c) => s.(calls := s.calls - {c})
  }

  function Run(s: State, steps: seq<Step>): State
    decreases |steps|
  {
    if steps == [] then s else Run(Apply(s, steps[0]), steps[1..])
  }

  // ---------------------------------------------------------------- invariant

  /** No account has two addresses. */
  ghost predicate OneEach(pool: seq<Option<AccountId>>) {
    forall i, j :: 0 <= i < j < |pool| && pool[i].Some? ==> pool[i] != pool[j]
  }

  /** Locked rows are free, and locked by one call each. */
  ghost predicate LocksSound(s: State) {
    && (forall c :: c in s.calls && s.calls[c].Holding? ==> s.calls[c].row < |s.pool| && s.pool[s.calls[c].row].None?)
    && (forall c, d :: c in s.calls && d in s.calls && c != d && s.calls[c].Holding? && s.calls[d].Holding? ==>
        s.calls[c].row != s.calls[d].row)
  }

  /** A call sent to read back has something to read. */
  ghost predicate ReadersSound(s: State) {
    forall c :: c in s.calls && s.calls[c].ReadingBack? ==> Existing(s.pool, s.calls[c].account).Some?
  }

  ghost predicate AnswersSound(s: State) {
    forall k :: 0 <= k < |s.done| ==>
      && s.done[k].answer != LostRace
      && (s.done[k].answer.Got? ==>
          s.done[k].answer.address < |s.pool| && s.pool[s.done[k].answer.address] == Some(s.done[k].account))
  }

  ghost predicate Inv(s: State) {
    OneEach(s.pool) && LocksSound(s) && ReadersSound(s) && AnswersSound(s)
  }

  /** Assigned rows keep their account for ever. */
  ghost predicate Keeps(a: seq<Option<AccountId>>, b: seq<Option<AccountId>>) {
    |a| <= |b| && forall i :: 0 <= i < |a| && a[i].Some? ==> b[i] == a[i]
  }

  lemma ExistingKept(a: seq<Option<AccountId>>, b: seq<Option<AccountId>>, x: AccountId)
    requires Keeps(a, b) && Existing(a, x).Some?
    ensures Existing(b, x).Some?
  {
  }

  lemma StepKeeps(s: State, step: Step)
    requires LocksSound(s)
    ensures Keeps(s.pool, Apply(s, step).pool)
  {
  }

  lemma StepKeepsReaders(s: State, step: Step)
    requires Inv(s)
    ensures ReadersSound(Apply(s, step))
  {
    StepKeeps(s, step);
    var s' := Apply(s, step);
    forall c | c in s'.calls && s'.calls[c].ReadingBack? ensures Existing(s'.pool, s'.calls[c].account).Some? {
      assert Existing(s.pool, s'.calls[c].account).Some?;
      ExistingKept(s.pool, s'.pool, s'.calls[c].account);
    }
  }

  lemma StepKeepsLocks(s: State, step: Step)
    requires Inv(s)
    ensures LocksSound(Apply(s, step))
  {
    match step
    case Lock(c) =>
      var row := FirstClaimable(s, 0);
      assert row.Some? ==> forall d :: d in s.calls && s.calls[d].Holding? ==> s.calls[d].row != row.value;
    case _ =>
  }

  lemma StepKeepsInv(s: State, step: Step)
    requires Inv(s)
    ensures Inv(Apply(s, step))
  {
    StepKeeps(s, step);
    StepKeepsReaders(s, step);
    StepKeepsLocks(s, step);
  }

  lemma {:induction false} RunKeepsInv(s: State, steps: seq<Step>)
    requires Inv(s)
    ensures Inv(Run(s, steps)) && Keeps(s.pool, Run(s, steps).pool) && s.done <= Run(s, steps).done
    decreases |steps|
  {
    if steps != [] {
      StepKeepsInv(s, steps[0]);
      StepKeeps(s, steps[0]);
      RunKeepsInv(Apply(s, steps[0]), steps[1..]);
    }
  }

  // ---------------------------------------------------------------- conservation

  function Free(pool: seq<Option<AccountId>>): nat {
    if pool == [] then 0 else Free(pool[..|pool| - 1]) + if pool[|pool| - 1].None? then 1 else 0
  }

  function Assigned(pool: seq<Option<AccountId>>): set<AccountId> {
    if pool == [] then {}
    else Assigned(pool[..|pool| - 1]) + match pool[|pool| - 1] case None => {} case Some(a) => {a}
  }

  lemma {:induction false} AssignedAre(pool: seq<Option<AccountId>>)
    ensures forall a :: a in Assigned(pool) <==> exists i :: 0 <= i < |pool| && pool[i] == Some(a)
  {
    if pool != [] {
      var front := pool[..|pool| - 1];
      AssignedAre(front);
      forall a ensures a in Assigned(pool) <==> exists i :: 0 <= i < |pool| && pool[i] == Some(a) {
        if i :| 0 <= i < |pool| && pool[i] == Some(a) {
          assert i < |front| ==> front[i] == Some(a);
        }
        if i :| 0 <= i < |front| && front[i] == Some(a) {
          assert pool[i] == Some(a);
        }
        assert pool[|pool| - 1] == Some(a) ==> exists i :: 0 <= i < |pool| && pool[i] == Some(a);
      }
    }
  }

  /** Every address is free or belongs to exactly one account. */
  lemma {:induction false} PoolAddsUp(pool: seq<Option<AccountId>>)
    requires OneEach(pool)
    ensures Free(pool) + |Assigned(pool)| == |pool|
  {
    if pool != [] {
      var front := pool[..|pool| - 1];
      PoolAddsUp(front);
      AssignedAre(front);
      assert forall i :: 0 <= i < |front| && front[i].Some? ==> front[i] == pool[i] && pool[i] != pool[|pool| - 1];
    }
  }

  /**
   With any number of concurrent calls: accounts and assigned addresses correspond
   one to one, calls for one account agree for ever, the free pool shrinks by
   exactly the newly assigned accounts, and no call loses a race to nobody.
   */
  lemma EveryRunKeepsThePool(s: State, steps: seq<Step>)
    requires Inv(s)
    ensures var s' := Run(s, steps);
      && OneEach(s'.pool) && Keeps(s.pool, s'.pool)
      && Assigned(s.pool) <= Assigned(s'.pool)
      && Free(s.pool) + (|s'.pool| - |s.pool|) == Free(s'.pool) + |Assigned(s'.pool) - Assigned(s.pool)|
      && (forall k, l :: 0 <= k < l < |s'.done| && s'.done[k].answer.Got? && s'.done[l].answer.Got? ==>
          (s'.done[k].account == s'.done[l].account <==> s'.done[k].answer == s'.done[l].answer))
      && (forall k :: 0 <= k < |s'.done| ==> s'.done[k].answer != LostRace)
  {
    RunKeepsInv(s, steps);
    var s' := Run(s, steps);
    PoolAddsUp(s.pool);
    PoolAddsUp(s'.pool);
    AssignedAre(s.pool);
    AssignedAre(s'.pool);
    forall a | a in Assigned(s.pool) ensures a in Assigned(s'.pool) {
      var i :| 0 <= i < |s.pool| && s.pool[i] == Some(a);
      assert s'.pool[i] == Some(a);
    }
    Difference(Assigned(s.pool), Assigned(s'.pool));
  }

  lemma Difference(a: set<AccountId>, b: set<AccountId>)
    requires a <= b
    ensures |b - a| == |b| - |a|
  {
    assert b == a + (b - a);
  }

  /** "Pool empty" means that every row is assigned or held by another claim, not that none is free. */
  lemma EmptyAnswerIff(s: State, c: CallId)
    requires c in s.calls && s.calls[c].Claiming?
    ensures Apply(s, Lock(c)).done == s.done + [Finished(s.calls[c].account, PoolEmpty)] <==>
      forall i :: 0 <= i < |s.pool| ==> s.pool[i].Some? || Held(s.calls, i)
  {
    assert forall i :: 0 <= i < |s.pool| ==> (Claimable(s, i) <==> !(s.pool[i].Some? || Held(s.calls, i)));
  }

  /** The rows a claim may take: free, and locked by no other call. */
  function FreeFor(s: State): set<Address> {
    set i: nat | i < |s.pool| && s.pool[i] == None && forall c :: c in s.calls ==> !(s.calls[c].Holding? && s.calls[c].row == i)
  }

  ghost predicate HasAddress(s: State, a: AccountId) {
    exists i :: 0 <= i < |s.pool| && s.pool[i] == Some(a)
  }

  /** The call has ended with this answer and nothing else has moved but, if given, the pool. */
  ghost predicate Answered(s: State, s': State, c: CallId, a: AccountId, answer: Answer) {
    s'.calls == s.calls - {c} && s'.done == s.done + [Finished(a, answer)]
  }

  /** The look-up: an account that has an address gets it at once, any other goes on to claim. */
  lemma LookUpMeans(s: State, c: CallId, a: AccountId)
    requires c !in s.calls
    ensures Apply(s, Begin(c, a)).pool == s.pool
    ensures HasAddress(s, a) ==> exists x: Address :: x < |s.pool| && s.pool[x] == Some(a) && Answered(s, Apply(s, Begin(c, a)), c, a, Got(x))
    ensures !HasAddress(s, a) ==> Apply(s, Begin(c, a)) == s.(calls := s.calls[c := Claiming(a)])
  {
    var e := Existing(s.pool, a);
    if HasAddress(s, a) { assert Answered(s, Apply(s, Begin(c, a)), c, a, Got(e.value)); }
  }

  /** The choice of a row: the first one a claim may take. */
  lemma LockMeans(s: State, c: CallId)
    requires c in s.calls && s.calls[c].Claiming?
    ensures FreeFor(s) == {} ==> Apply(s, Lock(c)).pool == s.pool && Answered(s, Apply(s, Lock(c)), c, s.calls[c].account, PoolEmpty)
    ensures FreeFor(s) != {} ==> exists x ::
      && x in FreeFor(s) && (forall i :: i in FreeFor(s) ==> x <= i)
      && Apply(s, Lock(c)) == s.(calls := s.calls[c := Holding(s.calls[c].account, x)])
  {
    assert forall i :: 0 <= i < |s.pool| ==> (Claimable(s, i) <==> i in FreeFor(s));
    var row := FirstClaimable(s, 0);
    if row.Some? {
      assert row.value in FreeFor(s) && forall i :: i in FreeFor(s) ==> row.value <= i;
    } else {
      assert forall i :: i !in FreeFor(s);
    }
  }

  /** The write: the row becomes the account's unless the account has one by now. */
  lemma WriteMeans(s: State, c: CallId)
    requires c in s.calls && s.calls[c].Holding? && s.calls[c].row < |s.pool|
    ensures var k := s.calls[c]; var s' := Apply(s, Write(c));
      if HasAddress(s, k.account) then s' == s.(calls := s.calls[c := ReadingBack(k.account)])
      else s'.pool == s.pool[k.row := Some(k.account)] && Answered(s, s', c, k.account, Got(k.row))
  {
  }

  /** The read-back: the address the account has. */
  lemma ReadBackMeans(s: State, c: CallId)
    requires c in s.calls && s.calls[c].ReadingBack? && HasAddress(s, s.calls[c].account)
    ensures Apply(s, ReadBack(c)).pool == s.pool
    ensures exists x: Address ::
      && x < |s.pool| && s.pool[x] == Some(s.calls[c].account)
      && Answered(s, Apply(s, ReadBack(c)), c, s.calls[c].account, Got(x))
  {
    var e := Existing(s.pool, s.calls[c].account);
    assert Answered(s, Apply(s, ReadBack(c)), c, s.calls[c].account, Got(e.value));
  }

  // ---------------------------------------------------------------- one call

  /** ClaimDepositAddress by a call that holds the only claim: the first free row, unless the account has one. */
  function ClaimOne(pool: seq<Option<AccountId>>, a: AccountId): (r: seq<Option<AccountId>>)
    ensures Keeps(pool, r) && |r| == |pool|
    ensures OneEach(pool) ==> OneEach(r)
    ensures Existing(r, a).Some? <==> Existing(pool, a).Some? || exists i :: 0 <= i < |pool| && pool[i].None?
  {
    var row := FirstClaimable(State(pool, map[], []), 0);
    assert forall i :: 0 <= i < |pool| ==> (Claimable(State(pool, map[], []), i) <==> pool[i].None?);
    if row.Some? && Existing(pool, a).None? then
      var r := pool[row.value := Some(a)];
      assert r[row.value] == Some(a);
      r
    else pool
  }

  function ClaimAll(pool: seq<Option<AccountId>>, others: seq<AccountId>): (r: seq<Option<AccountId>>)
    ensures Keeps(pool, r) && |r| == |pool|
    ensures OneEach(pool) ==> OneEach(r)
  {
    if others == [] then pool else ClaimOne(ClaimAll(pool, others[..|others| - 1]), others[|others| - 1])
  }

  class Assigner {
    var pool: seq<Option<AccountId>>

    constructor ()
      ensures pool == []
    {
      pool := [];
    }

    method Claim(a: AccountId) returns (row: Option<Address>, violation: bool)
      modifies this
      ensures pool == ClaimOne(old(pool), a)
      ensures row == FirstClaimable(State(old(pool), map[], []), 0)
      ensures violation <==> row.Some? && Existing(old(pool), a).Some?
      ensures row.Some? ==>
        row.value < |old(pool)| && old(pool)[row.value] == None && forall j :: 0 <= j < row.value ==> old(pool)[j].Some?
      ensures row.None? ==> forall j :: 0 <= j < |old(pool)| ==> old(pool)[j].Some?
      ensures violation ==> exists i :: 0 <= i < |old(pool)| && old(pool)[i] == Some(a)
      ensures row.Some? && !violation ==>
        pool == old(pool)[row.value := Some(a)] && forall i :: 0 <= i < |old(pool)| ==> old(pool)[i] != Some(a)
      ensures row.None? || violation ==> pool == old(pool)
    {
      assert forall k :: 0 <= k < |pool| ==> (Claimable(State(pool, map[], []), k) <==> pool[k].None?);

      row := FirstClaimable(State(pool, map[], []), 0);
      violation := row.Some? && Existing(pool, a).Some?;
      if row.Some? && !violation {
        pool := pool[row.value := Some(a)];
      }
    }

    /** The claim and what Assign makes of it. */
    method ClaimOrReadBack(a: AccountId) returns (r: Answer)
      requires OneEach(pool)
      modifies this
      ensures OneEach(pool) && pool == ClaimOne(old(pool), a)
      ensures r != LostRace
      ensures r.Got? ==> Some(r.address) == Existing(pool, a)
      ensures r.PoolEmpty? <==> forall i :: 0 <= i < |old(pool)| ==> old(pool)[i].Some?
    {
      assert forall k :: 0 <= k < |pool| ==> (Claimable(State(pool, map[], []), k) <==> pool[k].None?);
      var row, violation := Claim(a);
      if row.None? {
        return PoolEmpty;
      }
      if violation {
        var e := Existing(pool, a);
        if e.None? {
          return LostRace;
        }
        return Got(e.value);
      }
      assert pool[row.value] == Some(a);
      r := Got(row.value);
    }

    /** The claims of other calls. */
    method Others(others: seq<AccountId>)
      modifies this
      ensures pool == ClaimAll(old(pool), others)
    {
      for i := 0 to |others|
        invariant pool == ClaimAll(old(pool), others[..i])
      {
        var _, _ := Claim(others[i]);
        assert others[..i + 1][..i] == others[..i];
      }
      assert others[..|others|] == others;
    }

    /**
     Assign, with the claims that commit between its look-up and its own claim.
     It answers with the account's address unless, at its claim, no row is free.
     */
    method Assign(a: AccountId, others: seq<AccountId>) returns (r: Answer)
      requires OneEach(pool)
      modifies this
      ensures OneEach(pool) && Keeps(old(pool), pool)
      ensures if Existing(old(pool), a).Some? then pool == old(pool) else pool == ClaimOne(ClaimAll(old(pool), others), a)
      ensures r != LostRace
      ensures r.Got? ==> Some(r.address) == Existing(pool, a)
      ensures r.PoolEmpty? <==>
        (Existing(old(pool), a).None? && forall i :: 0 <= i < |old(pool)| ==> ClaimAll(old(pool), others)[i].Some?)
    {
      var e := Existing(pool, a);
      if e.Some? {
        return Got(e.value);
      }
      Others(others);
      r := ClaimOrReadBack(a);
    }
  }
}
