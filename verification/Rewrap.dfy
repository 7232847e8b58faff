/**
 Re-sealing stored secrets under a new master key (internal/auth/rewrap.go,
 internal/platform/secretbox/keyring.go, internal/app/keys.go).

 The cipher is any pair of functions of which one thing is assumed: what is
 sealed under a key opens under it. Other keys may or may not open a blob.
 */
module Rewrap {
  import opened Options

  type Key = seq<int>
  type Blob = seq<int>
  type Nonce = nat

  const KEY_SIZE: nat := 32

  datatype Cipher = Cipher(open: (Key, Blob) -> Option<string>, seal: (Key, string, Nonce) -> Blob)

  ghost predicate Sound(c: Cipher) {
    forall k, secret, n :: c.open(k, c.seal(k, secret, n)) == Some(secret)
  }

  // ---------------------------------------------------------------- keyring

  /** An empty key is an absent one. */
  datatype Keyring = Keyring(current: Key, previous: Key)

  predicate Valid(r: Keyring) {
    if r.current == [] && r.previous == [] then true
    else |r.current| == KEY_SIZE && (r.previous == [] || (|r.previous| == KEY_SIZE && r.previous != r.current))
  }

  /** Open under the current key, then under the previous one. */
  function Open(c: Cipher, r: Keyring, b: Blob): Option<string> {
    if c.open(r.current, b).Some? then c.open(r.current, b)
    else if r.previous == [] then None
    else c.open(r.previous, b)
  }

  predicate UnderCurrent(c: Cipher, r: Keyring, b: Blob) {
    c.open(r.current, b).Some?
  }

  /** Keyring.Rewrap: leave what the current key opens, re-seal what only the previous one does. */
  function RewrapOne(c: Cipher, r: Keyring, b: Blob, n: Nonce): Option<Blob> {
    if UnderCurrent(c, r, b) then Some(b)
    else
      var secret := Open(c, r, b);
      if secret.None? then None else Some(c.seal(r.current, secret.value, n))
  }

  // ---------------------------------------------------------------- one pass

  /** Rows not yet under the current key. */
  function Stale(c: Cipher, r: Keyring, rows: seq<Blob>): nat {
    if rows == [] then 0
    else Stale(c, r, rows[..|rows| - 1]) + if UnderCurrent(c, r, rows[|rows| - 1]) then 0 else 1
  }

  /** Every row that has to be rewritten can be. */
  predicate Writable(c: Cipher, r: Keyring, rows: seq<Blob>, unwritable: set<nat>) {
    forall i: nat :: i < |rows| && i in unwritable ==> UnderCurrent(c, r, rows[i])
  }

  predicate AllOpen(c: Cipher, r: Keyring, rows: seq<Blob>) {
    forall i :: 0 <= i < |rows| ==> Open(c, r, rows[i]).Some?
  }

  /** The rows a successful pass leaves. */
  function Resealed(c: Cipher, r: Keyring, rows: seq<Blob>, nonces: seq<Nonce>): (out: seq<Blob>)
    requires |nonces| == |rows| && AllOpen(c, r, rows)
    ensures |out| == |rows|
    ensures forall i :: 0 <= i < |rows| ==> Some(out[i]) == RewrapOne(c, r, rows[i], nonces[i])
  {
    seq(|rows|, i requires 0 <= i < |rows| => RewrapOne(c, r, rows[i], nonces[i]).value)
  }

  /** Same secrets, each now opened by the current key alone; rows it opened before are untouched. */
  lemma PassPreservesSecrets(c: Cipher, r: Keyring, rows: seq<Blob>, nonces: seq<Nonce>)
    requires Sound(c) && |nonces| == |rows| && AllOpen(c, r, rows)
    ensures var out := Resealed(c, r, rows, nonces);
      forall i :: 0 <= i < |rows| ==>
        && c.open(r.current, out[i]) == Open(c, r, rows[i])
        && Open(c, Keyring(r.current, []), out[i]) == Open(c, r, rows[i])
        && (UnderCurrent(c, r, rows[i]) ==> out[i] == rows[i])
  {
    var out := Resealed(c, r, rows, nonces);
    forall i | 0 <= i < |rows| ensures c.open(r.current, out[i]) == Open(c, r, rows[i]) {
      assert Some(out[i]) == RewrapOne(c, r, rows[i], nonces[i]);
      assert Open(c, r, rows[i]).Some?;
    }
  }

  lemma {:induction false} NothingStale(c: Cipher, r: Keyring, rows: seq<Blob>)
    requires forall i :: 0 <= i < |rows| ==> UnderCurrent(c, r, rows[i])
    ensures Stale(c, r, rows) == 0
    decreases |rows|
  {
    if rows != [] { NothingStale(c, r, rows[..|rows| - 1]); }
  }

  /** A second pass, with the old key or without it, finds nothing to do. */
  lemma SecondPassIsIdle(c: Cipher, r: Keyring, rows: seq<Blob>, first: seq<Nonce>, second: seq<Nonce>, previous: Key)
    requires Sound(c) && |first| == |rows| && |second| == |rows| && AllOpen(c, r, rows)
    ensures var out := Resealed(c, r, rows, first); var again := Keyring(r.current, previous);
      && AllOpen(c, again, out)
      && Stale(c, again, out) == 0
      && Resealed(c, again, out, second) == out
  {
    PassPreservesSecrets(c, r, rows, first);
    var out := Resealed(c, r, rows, first);
    var again := Keyring(r.current, previous);
    forall i | 0 <= i < |out| ensures UnderCurrent(c, again, out[i]) {
      assert c.open(r.current, out[i]) == Open(c, r, rows[i]);
    }
    NothingStale(c, again, out);
  }

  lemma StaleSnoc(c: Cipher, r: Keyring, rows: seq<Blob>, i: nat)
    requires i < |rows|
    ensures Stale(c, r, rows[..i + 1]) == Stale(c, r, rows[..i]) + if UnderCurrent(c, r, rows[i]) then 0 else 1
  {
    assert rows[..i + 1][..i] == rows[..i];
  }

  /** In terms of the cipher alone: the current key opens the blob, or a previous one there is. */
  predicate Openable(c: Cipher, current: Key, previous: Key, b: Blob) {
    c.open(current, b).Some? || (previous != [] && c.open(previous, b).Some?)
  }

  /** The rows the current key does not open. */
  function NotUnder(c: Cipher, current: Key, rows: seq<Blob>): set<nat> {
    set i: nat | i < |rows| && c.open(current, rows[i]).None?
  }

  lemma {:induction false} StaleCounts(c: Cipher, r: Keyring, rows: seq<Blob>)
    ensures Stale(c, r, rows) == |NotUnder(c, r.current, rows)|
    decreases |rows|
  {
    if rows == [] {
      assert NotUnder(c, r.current, rows) == {};
    } else {
      var n := |rows| - 1;
      StaleCounts(c, r, rows[..n]);
      var fewer := NotUnder(c, r.current, rows[..n]);
      assert n !in fewer;
      if c.open(r.current, rows[n]).None? {
        assert NotUnder(c, r.current, rows) == fewer + {n};
      } else {
        assert NotUnder(c, r.current, rows) == fewer;
      }
    }
  }

  /** A pass succeeds on exactly the rows that one of the two keys opens. */
  lemma OpenableIff(c: Cipher, r: Keyring, rows: seq<Blob>)
    ensures AllOpen(c, r, rows) <==> forall i :: 0 <= i < |rows| ==> Openable(c, r.current, r.previous, rows[i])
  {
  }

  /** What a pass leaves in a row: what the current key opened, else what the previous key opened sealed under the current one. */
  ghost predicate CarriedOver(c: Cipher, current: Key, previous: Key, before: Blob, after: Blob) {
    if c.open(current, before).Some? then after == before
    else
      && previous != [] && c.open(previous, before).Some?
      && exists n :: after == c.seal(current, c.open(previous, before).value, n)
  }

  lemma ResealedCarriesOver(c: Cipher, r: Keyring, rows: seq<Blob>, nonces: seq<Nonce>)
    requires |nonces| == |rows| && AllOpen(c, r, rows)
    ensures forall i :: 0 <= i < |rows| ==> CarriedOver(c, r.current, r.previous, rows[i], Resealed(c, r, rows, nonces)[i])
  {
    forall i | 0 <= i < |rows| ensures CarriedOver(c, r.current, r.previous, rows[i], Resealed(c, r, rows, nonces)[i]) {
      assert Open(c, r, rows[i]).Some?;
      assert Some(Resealed(c, r, rows, nonces)[i]) == RewrapOne(c, r, rows[i], nonces[i]);
    }
  }

  /** Rows sealed under the previous key, which the current one does not open, come out opening under the current key. */
  lemma RotationCarriesSecrets(c: Cipher, r: Keyring, rows: seq<Blob>, nonces: seq<Nonce>, secrets: seq<string>, sealed: seq<Nonce>)
    requires Sound(c) && r.previous != [] && |nonces| == |secrets| == |sealed| == |rows|
    requires forall i :: 0 <= i < |rows| ==>
      rows[i] == c.seal(r.previous, secrets[i], sealed[i]) && c.open(r.current, rows[i]).None?
    ensures AllOpen(c, r, rows) && Stale(c, r, rows) == |rows|
    ensures forall i :: 0 <= i < |rows| ==> c.open(r.current, Resealed(c, r, rows, nonces)[i]) == Some(secrets[i])
  {
    forall i | 0 <= i < |rows| ensures Openable(c, r.current, r.previous, rows[i]) {
      assert c.open(r.previous, rows[i]) == Some(secrets[i]);
    }
    OpenableIff(c, r, rows);
    ResealedCarriesOver(c, r, rows, nonces);
    PassPreservesSecrets(c, r, rows, nonces);
    StaleCounts(c, r, rows);
    AllIndices(rows, NotUnder(c, r.current, rows));
    forall i | 0 <= i < |rows| ensures c.open(r.current, Resealed(c, r, rows, nonces)[i]) == Some(secrets[i]) {
      assert c.open(r.previous, rows[i]) == Some(secrets[i]);
      assert CarriedOver(c, r.current, r.previous, rows[i], Resealed(c, r, rows, nonces)[i]);
    }
  }

  lemma {:induction false} AllIndices(rows: seq<Blob>, s: set<nat>)
    requires forall i: nat :: i in s <==> i < |rows|
    ensures |s| == |rows|
    decreases |rows|
  {
    if rows == [] {
      assert s == {};
    } else {
      var n: nat := |rows| - 1;
      AllIndices(rows[..n], s - {n});
    }
  }

  class Vault {
    var rows: seq<Blob>

    constructor (rows: seq<Blob>)
      ensures this.rows == rows
    {
      this.rows := rows;
    }

    /**
     RewrapAPIKeys and RewrapTOTPSecrets inside the transaction: rows are rewritten
     as the loop meets them, and the first row that no key opens, or whose update
     fails, stops it. `listed` says whether the list statement succeeded.
     */
    method RewrapRows(c: Cipher, r: Keyring, nonces: seq<Nonce>, listed: bool, unwritable: set<nat>)
      returns (ok: bool, scanned: nat, changed: nat)
      requires |nonces| == |rows|
      modifies this
      ensures ok <==> Valid(r) && r.current != [] && listed && AllOpen(c, r, old(rows)) && Writable(c, r, old(rows), unwritable)
      ensures ok ==> rows == Resealed(c, r, old(rows), nonces)
      ensures ok ==> scanned == |rows| && changed == Stale(c, r, old(rows))
      ensures ok <==>
        && |r.current| == KEY_SIZE && (r.previous == [] || (|r.previous| == KEY_SIZE && r.previous != r.current)) && listed
        && (forall i :: 0 <= i < |old(rows)| ==> Openable(c, r.current, r.previous, old(rows)[i]))
        && (forall i: nat :: i < |old(rows)| && i in unwritable ==> c.open(r.current, old(rows)[i]).Some?)
      ensures ok ==> |rows| == |old(rows)| && changed == |NotUnder(c, r.current, old(rows))|
      ensures ok ==> forall i :: 0 <= i < |rows| ==> CarriedOver(c, r.current, r.previous, old(rows)[i], rows[i])
    {
      OpenableIff(c, r, rows);
      StaleCounts(c, r, rows);
      if AllOpen(c, r, rows) { ResealedCarriesOver(c, r, rows, nonces); }
      ok, scanned, changed := false, 0, 0;
      if !Valid(r) || r.current == [] {
        return;
      }
      if !listed {
        return;
      }
      while scanned < |rows|
        invariant scanned <= |rows| == |old(rows)|
        invariant forall i :: scanned <= i < |rows| ==> rows[i] == old(rows)[i]
        invariant forall i :: 0 <= i < scanned ==>
          (i in unwritable ==> UnderCurrent(c, r, old(rows)[i])) && Open(c, r, old(rows)[i]).Some? && Some(rows[i]) == RewrapOne(c, r, old(rows)[i], nonces[i])
        invariant changed == Stale(c, r, old(rows)[..scanned])
      {
        var i := scanned;
        scanned := scanned + 1;
        StaleSnoc(c, r, old(rows), i);
        var sealed := RewrapOne(c, r, rows[i], nonces[i]);
        if sealed.None? {
          return;
        }
        if !UnderCurrent(c, r, rows[i]) {
          if i in unwritable {
            return;
          }
          rows := rows[i := sealed.value];
          changed := changed + 1;
        }
      }
      assert old(rows)[..scanned] == old(rows);
      ok := true;
    }

    /** app.Rewrap: the loop in a transaction; `begun`, `audited` and `committed` say which statements around it succeed. */
    method RewrapAll(c: Cipher, r: Keyring, nonces: seq<Nonce>, begun: bool, listed: bool, unwritable: set<nat>, audited: bool, committed: bool)
      returns (ok: bool, scanned: nat, changed: nat)
      requires |nonces| == |rows|
      modifies this
      ensures ok <==>
        && Valid(r) && r.current != [] && AllOpen(c, r, old(rows)) && Writable(c, r, old(rows), unwritable)
        && begun && listed && audited && committed
      ensures ok <==>
        && |r.current| == KEY_SIZE && (r.previous == [] || (|r.previous| == KEY_SIZE && r.previous != r.current))
        && (forall i :: 0 <= i < |old(rows)| ==> Openable(c, r.current, r.previous, old(rows)[i]))
        && (forall i: nat :: i < |old(rows)| && i in unwritable ==> c.open(r.current, old(rows)[i]).Some?)
        && begun && listed && audited && committed
      ensures ok ==> |rows| == |old(rows)| && changed == |NotUnder(c, r.current, old(rows))|
      ensures ok ==> forall i :: 0 <= i < |rows| ==> CarriedOver(c, r.current, r.previous, old(rows)[i], rows[i])
      ensures ok && Sound(c) ==> forall i :: 0 <= i < |rows| ==>
        c.open(r.current, rows[i]) ==
          if c.open(r.current, old(rows)[i]).Some? then c.open(r.current, old(rows)[i]) else c.open(r.previous, old(rows)[i])
      ensures !ok ==> rows == old(rows)
      ensures ok ==> rows == Resealed(c, r, old(rows), nonces) && scanned == |rows| && changed == Stale(c, r, old(rows))
    {
      var tx := rows;
      OpenableIff(c, r, rows);
      ok, scanned, changed := false, 0, 0;
      if !Valid(r) || r.current == [] || !begun {
        return;
      }
      ok, scanned, changed := RewrapRows(c, r, nonces, listed, unwritable);
      if !ok || !audited || !committed {
        rows := tx;
        ok := false;
      }
    }
  }
}
