/**
 The one-shot stash that carries a signing secret across a redirect
 (internal/admin/ui_webhooks.go). Tokens are random, hence never put twice.
 Times are seconds and never run backwards.
 */
module RevealStash {
  import opened Options

  type Token = nat

  const REVEAL_TTL := 5 * 60

  datatype Revealed = Revealed(secret: string, expires: int)

  /** What has happened, in order; a take is recorded whether or not it found anything. */
  datatype Event = Put(token: Token, secret: string, at: int) | Take(token: Token, at: int)

  /** What a take is owed, by the history alone: the secret, if put, not asked for since, and at most five minutes old. */
  function Owed(history: seq<Event>, token: Token, at: int): Option<string> {
    if history == [] then None
    else
      var last := history[|history| - 1];
      if last.token != token then Owed(history[..|history| - 1], token, at)
      else
        match last
        case Put(_, secret, put) => if at <= put + REVEAL_TTL then Some(secret) else None
        case Take(_, _) => None
  }

  ghost predicate Before(history: seq<Event>, now: int) {
    && (forall i :: 0 <= i < |history| ==> history[i].at <= now)
    && (forall i, j :: 0 <= i < j < |history| && history[j].Put? ==> history[i].token != history[j].token)
  }

  /** The map answers every take from now on as the history owes it. */
  ghost predicate Faithful(m: map<Token, Revealed>, history: seq<Event>, now: int) {
    && Before(history, now)
    && forall token, at :: now <= at ==>
        Owed(history, token, at) == if token in m && at <= m[token].expires then Some(m[token].secret) else None
  }

  lemma OwedAppend(history: seq<Event>, e: Event, token: Token, at: int)
    ensures Owed(history + [e], token, at) ==
      if e.token != token then Owed(history, token, at)
      else match e
        case Put(_, secret, put) => (if at <= put + REVEAL_TTL then Some(secret) else None)
        case Take(_, _) => None
  {
    assert (history + [e])[..|history|] == history;
  }

  /** A secret owed was put at most five minutes ago and not asked for since; asking makes it the last time. */
  lemma {:induction false} OwedOnce(history: seq<Event>, token: Token, at: int) returns (i: nat)
    requires Before(history, at) && Owed(history, token, at).Some?
    ensures i < |history| && history[i].Put? && history[i].token == token
    ensures Owed(history, token, at) == Some(history[i].secret) && at - REVEAL_TTL <= history[i].at <= at
    ensures forall j :: i < j < |history| ==> history[j].token != token
    decreases |history|
  {
    var n := |history| - 1;
    if history[n].token != token {
      assert Before(history[..n], at);
      i := OwedOnce(history[..n], token, at);
    } else {
      i := n;
    }
  }

  /** Once a token has been taken, nothing but a put of the same token makes it good again. */
  lemma {:induction false} TakenForGood(history: seq<Event>, more: seq<Event>, token: Token, at: int, later: int)
    requires forall i :: 0 <= i < |more| ==> !(more[i].Put? && more[i].token == token)
    ensures Owed(history + [Take(token, at)] + more, token, later).None?
    decreases |more|
  {
    var all := history + [Take(token, at)] + more;
    if more == [] {
      assert all == history + [Take(token, at)];
      OwedAppend(history, Take(token, at), token, later);
    } else {
      var front := more[..|more| - 1];
      TakenForGood(history, front, token, at, later);
      assert all[..|all| - 1] == history + [Take(token, at)] + front;
    }
  }

  /** An untaken secret stays owed for five minutes whatever else is put or taken. */
  lemma {:induction false} UntakenStays(history: seq<Event>, more: seq<Event>, token: Token, secret: string, put: int, later: int)
    requires later <= put + REVEAL_TTL
    requires forall i :: 0 <= i < |more| ==> more[i].token != token
    ensures Owed(history + [Put(token, secret, put)] + more, token, later) == Some(secret)
    decreases |more|
  {
    var all := history + [Put(token, secret, put)] + more;
    if more == [] {
      assert all == history + [Put(token, secret, put)];
      OwedAppend(history, Put(token, secret, put), token, later);
    } else {
      UntakenStays(history, more[..|more| - 1], token, secret, put, later);
      assert all[..|all| - 1] == history + [Put(token, secret, put)] + more[..|more| - 1];
    }
  }

  class Stash {
    var m: map<Token, Revealed>
    ghost var history: seq<Event>
    ghost var now: int

    ghost predicate Valid()
      reads this
    {
      Faithful(m, history, now)
    }

    constructor (start: int)
      ensures Valid() && history == [] && now == start
    {
      m, history, now := map[], [], start;
    }

    /**
     put: the expiry is fixed at `at`, before the lock, which other calls may hold
     until `locked`; then expired entries go, each looked at some time until `done`.
     */
    method PutSecret(token: Token, secret: string, at: int, locked: int, done: int)
      requires Valid() && at <= locked && now <= locked <= done
      requires forall i :: 0 <= i < |history| ==> history[i].token != token
      modifies this
      ensures Valid() && now == done && history == old(history) + [Put(token, secret, at)]
      ensures token in m && m[token] == Revealed(secret, at + REVEAL_TTL)
    {
      var r := Revealed(secret, at + REVEAL_TTL);
      var keys := m.Keys;
      ghost var before := m;
      while keys != {}
        invariant history == old(history) && now == old(now)
        invariant keys <= m.Keys && m.Keys <= before.Keys
        invariant forall k :: k in m ==> m[k] == before[k]
        invariant forall k :: k in before && k !in m ==> before[k].expires < done
        decreases keys
      {
        var k :| k in keys;
        var looked :| locked <= looked <= done;
        keys := keys - {k};
        if looked > m[k].expires {
          m := m - {k};
        }
      }
      m := m[token := r];
      history := history + [Put(token, secret, at)];
      now := done;
      forall t, later | now <= later
        ensures Owed(history, t, later) == if t in m && later <= m[t].expires then Some(m[t].secret) else None
      {
        OwedAppend(old(history), Put(token, secret, at), t, later);
        assert Owed(old(history), t, later) ==
          if t in before && later <= before[t].expires then Some(before[t].secret) else None;
      }
    }

    /** take answers exactly what the history owes, and forgets the token. */
    method TakeSecret(token: Token, at: int) returns (r: Option<string>)
      requires Valid() && now <= at
      modifies this
      ensures Valid() && now == at && history == old(history) + [Take(token, at)]
      ensures r == Owed(old(history), token, at)
      ensures token !in m
    {
      ghost var before := m;
      r := None;
      if token in m {
        var found := m[token];
        m := m - {token};
        if at <= found.expires {
          r := Some(found.secret);
        }
      }
      history := history + [Take(token, at)];
      now := at;
      forall t, later | now <= later
        ensures Owed(history, t, later) == if t in m && later <= m[t].expires then Some(m[t].secret) else None
      {
        OwedAppend(old(history), Take(token, at), t, later);
        assert Owed(old(history), t, later) ==
          if t in before && later <= before[t].expires then Some(before[t].secret) else None;
      }
    }
  }
}
