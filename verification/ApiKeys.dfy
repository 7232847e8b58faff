/**
 The string an API-key client signs (internal/auth/apikey.go), and what a valid
 signature says about the request.
 */
module ApiKeys {
  import opened Options

  const MAX_SKEW := 30_000      // milliseconds

  datatype Request = Request(timestamp: string, method_: string, uri: string, body: string)

  /** strings.ToUpper on ASCII. */
  function UpperChar(c: char): char {
    if 'a' <= c <= 'z' then c - 'a' + 'A' else c
  }

  function Upper(s: string): (r: string)
    ensures |r| == |s| && forall i :: 0 <= i < |s| ==> r[i] == UpperChar(s[i])
  {
    seq(|s|, i requires 0 <= i < |s| => UpperChar(s[i]))
  }

  function Lower(s: string): (r: string)
    ensures |r| == |s| && forall i :: 0 <= i < |s| ==>
      r[i] == if s[i] in "ABCDEFGHIJKLMNOPQRSTUVWXYZ" then s[i] - 'A' + 'a' else s[i]
  {
    seq(|s|, i requires 0 <= i < |s| => if 'A' <= s[i] <= 'Z' then s[i] - 'A' + 'a' else s[i])
  }

  function Canonical(r: Request): string {
    r.timestamp + "\n" + Upper(r.method_) + "\n" + r.uri + "\n" + r.body
  }

  // ---------------------------------------------------------------- reading it back

  /** The text before the first newline and the text after it. */
  function Cut(s: string): Option<(string, string)> {
    if s == "" then None
    else if s[0] == '\n' then Some(("", s[1..]))
    else match Cut(s[1..])
      case None => None
      case Some((before, after)) => Some(([s[0]] + before, after))
  }

  /** Cut at the first three newlines. */
  function Parse(s: string): Option<Request> {
    match Cut(s)
    case None => None
    case Some((timestamp, s1)) =>
      match Cut(s1)
      case None => None
      case Some((method_, s2)) =>
        match Cut(s2)
        case None => None
        case Some((uri, body)) => Some(Request(timestamp, method_, uri, body))
  }

  lemma {:induction false} CutLine(line: string, rest: string)
    requires '\n' !in line
    ensures Cut(line + "\n" + rest) == Some((line, rest))
    decreases |line|
  {
    var s := line + "\n" + rest;
    if line == "" {
      assert s[1..] == rest;
    } else {
      CutLine(line[1..], rest);
      assert s[1..] == line[1..] + "\n" + rest;
      assert [line[0]] + line[1..] == line;
    }
  }

  lemma UpperKeepsLines(s: string)
    requires '\n' !in s
    ensures '\n' !in Upper(s)
  {
  }

  /** Timestamp, method and URI on one line each; the body is free. */
  predicate SingleLines(r: Request) {
    '\n' !in r.timestamp && '\n' !in r.method_ && '\n' !in r.uri
  }

  /** The signing string gives back the request, with its method in upper case. */
  lemma ParseCanonical(r: Request)
    requires SingleLines(r)
    ensures Parse(Canonical(r)) == Some(r.(method_ := Upper(r.method_)))
  {
    UpperKeepsLines(r.method_);
    var s2 := r.uri + "\n" + r.body;
    var s1 := Upper(r.method_) + "\n" + s2;
    assert Canonical(r) == r.timestamp + "\n" + s1;
    CutLine(r.timestamp, s1);
    CutLine(Upper(r.method_), s2);
    CutLine(r.uri, r.body);
  }

  /** CanonicalRequest, written piece by piece: nothing of the request is lost in it. */
  method CanonicalRequest(r: Request) returns (b: string)
    ensures SingleLines(r) ==> Parse(b) == Some(r.(method_ := Upper(r.method_)))
    ensures forall q :: SingleLines(q) && SingleLines(r) ==> (b == Canonical(q) <==> Same(q, r))
    ensures b == Canonical(r)
  {
    b := r.timestamp;
    b := b + "\n";
    b := b + Upper(r.method_);
    b := b + "\n";
    b := b + r.uri;
    b := b + "\n";
    b := b + r.body;
    if SingleLines(r) {
      ParseCanonical(r);
      forall q | SingleLines(q) ensures b == Canonical(q) <==> Same(q, r) { CanonicalInjective(q, r); }
    }
  }

  /** Equal up to the case of the method. */
  predicate Same(q: Request, r: Request) {
    q.(method_ := Upper(q.method_)) == r.(method_ := Upper(r.method_))
  }

  /** Requests that differ in more than the case of the method never share a signing string. */
  lemma CanonicalInjective(r: Request, q: Request)
    requires SingleLines(r) && SingleLines(q)
    ensures Canonical(r) == Canonical(q) <==> Same(r, q)
  {
    ParseCanonical(r);
    ParseCanonical(q);
  }

  // ---------------------------------------------------------------- with newlines

  predicate IsLower(c: char) {
    'a' <= c <= 'z'
  }

  /** The line after position p has a lower-case letter. */
  predicate LowerAfter(s: string, p: nat) {
    exists x :: p < x < |s| && IsLower(s[x]) && forall y :: p < y < x ==> s[y] != '\n'
  }

  /** Every line but the first has a lower-case letter, so none can be read as a method. */
  predicate LaterLinesLower(s: string) {
    forall p :: 0 <= p < |s| && s[p] == '\n' ==> LowerAfter(s, p)
  }

  /** No other request at all has this signing string. */
  ghost predicate StandsAlone(r: Request) {
    forall q :: Canonical(q) == Canonical(r) ==> Same(q, r)
  }

  /** Where the three separators are. */
  function Cuts(r: Request): (nat, nat, nat) {
    var first := |r.timestamp|;
    var second := first + 1 + |r.method_|;
    (first, second, second + 1 + |r.uri|)
  }

  lemma CutsInString(r: Request)
    ensures var s := Canonical(r); var (a, b, c) := Cuts(r);
      && a < b < c < |s| && s[a] == '\n' && s[b] == '\n' && s[c] == '\n'
      && s[..a] == r.timestamp && s[a + 1..b] == Upper(r.method_) && s[b + 1..c] == r.uri && s[c + 1..] == r.body
  {
  }

  lemma SameCutsSameRequest(r: Request, q: Request)
    requires Canonical(q) == Canonical(r) && Cuts(q) == Cuts(r)
    ensures Same(q, r)
  {
    CutsInString(r);
    CutsInString(q);
  }

  /** After the timestamp the only newlines are the separators. */
  lemma QuietAfterTimestamp(r: Request, x: nat)
    requires '\n' !in r.method_ && '\n' !in r.uri && '\n' !in r.body
    requires |r.timestamp| < x < |Canonical(r)| && x != Cuts(r).1 && x != Cuts(r).2
    ensures Canonical(r)[x] != '\n'
  {
    UpperKeepsLines(r.method_);
    CutsInString(r);
    var s := Canonical(r);
    var (a, b, c) := Cuts(r);
    if x < b {
      assert s[x] == s[a + 1..b][x - a - 1];
    } else if x < c {
      assert s[x] == s[b + 1..c][x - b - 1];
    } else {
      assert s[x] == s[c + 1..][x - c - 1];
    }
  }

  lemma MethodHasNoLower(q: Request, x: nat)
    requires Cuts(q).0 < x < Cuts(q).1
    ensures x < |Canonical(q)| && !IsLower(Canonical(q)[x])
  {
    CutsInString(q);
    var (a, b, _) := Cuts(q);
    assert Canonical(q)[x] == Canonical(q)[a + 1..b][x - a - 1];
    assert Upper(q.method_)[x - a - 1] == UpperChar(q.method_[x - a - 1]);
  }

  lemma TimestampComesFirst(r: Request)
    ensures |r.timestamp| < |Canonical(r)| && forall y :: 0 <= y < |r.timestamp| ==> Canonical(r)[y] == r.timestamp[y]
  {
  }

  lemma CutsAreNewlines(q: Request)
    ensures Cuts(q).0 < Cuts(q).1 < |Canonical(q)| && Canonical(q)[Cuts(q).0] == '\n' && Canonical(q)[Cuts(q).1] == '\n'
  {
    CutsInString(q);
  }

  /** A shorter timestamp would put a lower-case letter into the upper-case method. */
  lemma NoShorterTimestamp(r: Request, q: Request)
    requires LaterLinesLower(r.timestamp) && Canonical(q) == Canonical(r)
    ensures |q.timestamp| >= |r.timestamp|
  {
    var (p, e, _) := Cuts(q);
    CutsAreNewlines(q);
    if p < |r.timestamp| {
      TimestampComesFirst(r);
      assert LowerAfter(r.timestamp, p);
      var x :| p < x < |r.timestamp| && IsLower(r.timestamp[x]) && forall y :: p < y < x ==> r.timestamp[y] != '\n';
      if x < e { MethodHasNoLower(q, x); }
    }
  }

  lemma AloneIfQuiet(r: Request, q: Request)
    requires '\n' !in r.method_ && '\n' !in r.uri && '\n' !in r.body && LaterLinesLower(r.timestamp)
    requires Canonical(q) == Canonical(r)
    ensures Same(q, r)
  {
    NoShorterTimestamp(r, q);
    CutsInString(q);
    var (a, b, c) := Cuts(q);
    if a > |r.timestamp| && a != Cuts(r).1 && a != Cuts(r).2 { QuietAfterTimestamp(r, a); }
    if b != Cuts(r).1 && b != Cuts(r).2 { QuietAfterTimestamp(r, b); }
    if c != Cuts(r).1 && c != Cuts(r).2 { QuietAfterTimestamp(r, c); }
    SameCutsSameRequest(r, q);
  }

  lemma SplitAt(s: string, p: nat)
    requires p < |s| && s[p] == '\n'
    ensures s == s[..p] + "\n" + s[p + 1..]
  {
  }

  lemma UpperAppend(a: string, b: string)
    ensures Upper(a + "\n" + b) == Upper(a) + "\n" + Upper(b)
  {
  }

  /** A newline may move between URI and body, either way, and between method and URI. */
  lemma NewlineMoves(timestamp: string, method_: string, a: string, b: string, body: string)
    ensures Canonical(Request(timestamp, method_, a + "\n" + b, body)) == Canonical(Request(timestamp, method_, a, b + "\n" + body))
    ensures Canonical(Request(timestamp, a + "\n" + b, method_, body)) == Canonical(Request(timestamp, a, Upper(b), method_ + "\n" + body))
  {
    UpperAppend(a, b);
    assert Canonical(Request(timestamp, a + "\n" + b, method_, body)) ==
      timestamp + "\n" + Upper(a) + "\n" + Upper(b) + "\n" + method_ + "\n" + body;
  }

  lemma OtherMethodOrUri(r: Request) returns (q: Request)
    requires '\n' in r.method_ || '\n' in r.uri || '\n' in r.body
    ensures Canonical(q) == Canonical(r) && !Same(q, r)
  {
    if '\n' in r.uri {
      var p :| 0 <= p < |r.uri| && r.uri[p] == '\n';
      q := Request(r.timestamp, r.method_, r.uri[..p], r.uri[p + 1..] + "\n" + r.body);
      SplitAt(r.uri, p);
      NewlineMoves(r.timestamp, r.method_, r.uri[..p], r.uri[p + 1..], r.body);
      assert |q.uri| != |r.uri|;
    } else if '\n' in r.body {
      var p :| 0 <= p < |r.body| && r.body[p] == '\n';
      q := Request(r.timestamp, r.method_, r.uri + "\n" + r.body[..p], r.body[p + 1..]);
      SplitAt(r.body, p);
      NewlineMoves(r.timestamp, r.method_, r.uri, r.body[..p], r.body[p + 1..]);
      assert |q.uri| != |r.uri|;
    } else {
      var p :| 0 <= p < |r.method_| && r.method_[p] == '\n';
      q := Request(r.timestamp, r.method_[..p], Upper(r.method_[p + 1..]), r.uri + "\n" + r.body);
      SplitAt(r.method_, p);
      NewlineMoves(r.timestamp, r.uri, r.method_[..p], r.method_[p + 1..], r.body);
      assert |Upper(q.method_)| != |Upper(r.method_)|;
    }
  }

  lemma {:induction false} FirstLine(s: string) returns (e: nat)
    ensures e <= |s| && '\n' !in s[..e] && (e < |s| ==> s[e] == '\n')
    decreases |s|
  {
    if s == "" || s[0] == '\n' {
      e := 0;
    } else {
      var n := FirstLine(s[1..]);
      e := n + 1;
      assert s[..e] == [s[0]] + s[1..][..n];
    }
  }

  lemma NoLowerStaysUpper(line: string)
    requires forall x :: 0 <= x < |line| ==> !IsLower(line[x])
    ensures Upper(line) == line
  {
  }

  lemma LineWithoutLower(t: string, p: nat, e: nat)
    requires p < |t| && !LowerAfter(t, p) && p + 1 + e <= |t| && '\n' !in t[p + 1..p + 1 + e]
    ensures Upper(t[p + 1..p + 1 + e]) == t[p + 1..p + 1 + e]
  {
    var line := t[p + 1..p + 1 + e];
    forall x | 0 <= x < e ensures !IsLower(line[x]) {
      forall y | p < y < p + 1 + x ensures t[y] != '\n' { assert t[y] == line[y - p - 1]; }
      assert line[x] == t[p + 1 + x];
    }
    NoLowerStaysUpper(line);
  }

  /** A newline may move out of the timestamp when the line it opens reads as a method. */
  lemma TimestampMoves(first: string, line: string, more: string, method_: string, uri: string, body: string)
    requires Upper(line) == line
    ensures Canonical(Request(first + "\n" + line, method_, uri, body)) ==
      Canonical(Request(first, line, Upper(method_), uri + "\n" + body))
    ensures Canonical(Request(first + "\n" + (line + "\n" + more), method_, uri, body)) ==
      Canonical(Request(first, line, more, Upper(method_) + "\n" + uri + "\n" + body))
  {
  }

  /** A line of the timestamp without lower-case letters can be the method. */
  lemma OtherTimestamp(r: Request) returns (q: Request)
    requires !LaterLinesLower(r.timestamp)
    ensures Canonical(q) == Canonical(r) && !Same(q, r)
  {
    var t := r.timestamp;
    var p: nat :| p < |t| && t[p] == '\n' && !LowerAfter(t, p);
    var rest := t[p + 1..];
    var e := FirstLine(rest);
    var line := rest[..e];
    assert line == t[p + 1..p + 1 + e];
    LineWithoutLower(t, p, e);
    SplitAt(t, p);
    if e < |rest| {
      SplitAt(rest, e);
      TimestampMoves(t[..p], line, rest[e + 1..], r.method_, r.uri, r.body);
      q := Request(t[..p], line, rest[e + 1..], Upper(r.method_) + "\n" + r.uri + "\n" + r.body);
    } else {
      assert rest == line;
      TimestampMoves(t[..p], line, "", r.method_, r.uri, r.body);
      q := Request(t[..p], line, Upper(r.method_), r.uri + "\n" + r.body);
    }
    assert |q.timestamp| != |t|;
  }

  /**
   Exactly which requests share their signing string with no other request at all:
   no newline in method, URI and body, and no line of the timestamp after the first
   that could be a method.
   */
  lemma StandsAloneIff(r: Request)
    ensures StandsAlone(r) <==> '\n' !in r.method_ && '\n' !in r.uri && '\n' !in r.body && LaterLinesLower(r.timestamp)
  {
    if '\n' in r.method_ || '\n' in r.uri || '\n' in r.body {
      var q := OtherMethodOrUri(r);
    } else if !LaterLinesLower(r.timestamp) {
      var q := OtherTimestamp(r);
    } else {
      forall q | Canonical(q) == Canonical(r) ensures Same(q, r) { AloneIfQuiet(r, q); }
    }
  }

  // ---------------------------------------------------------------- verification

  /** HMAC and lower-case hex as one function of secret and message; `number` is strconv.ParseInt. */
  datatype Scheme = Scheme(mac: (string, string) -> string, number: string -> Option<int>)

  /** verifySignature. */
  predicate Verifies(s: Scheme, secret: string, signature: string, r: Request, now: int) {
    && s.number(r.timestamp).Some?
    && -MAX_SKEW <= now - s.number(r.timestamp).value <= MAX_SKEW
    && Lower(signature) == s.mac(secret, Canonical(r))
  }

  /** SignRequest. */
  function Sign(s: Scheme, secret: string, r: Request): string {
    s.mac(secret, Canonical(r))
  }

  /** Codes come out in lower-case hexadecimal. */
  ghost predicate LowerHex(s: Scheme) {
    forall secret, m :: Lower(s.mac(secret, m)) == s.mac(secret, m)
  }

  /** What a client signs verifies, in either case, exactly when its timestamp is a number at most thirty seconds away. */
  lemma SignedVerifiesIff(s: Scheme, secret: string, r: Request, now: int, signature: string)
    requires LowerHex(s) && Lower(signature) == Sign(s, secret, r)
    ensures Lower(Sign(s, secret, r)) == Sign(s, secret, r)
    ensures Verifies(s, secret, signature, r, now) <==>
      s.number(r.timestamp).Some? && s.number(r.timestamp).value - 30_000 <= now <= s.number(r.timestamp).value + 30_000
  {
  }

  /** And nothing else verifies: a signature that does is the one the client would make. */
  lemma OnlySignedVerifies(s: Scheme, secret: string, r: Request, now: int, signature: string)
    requires Verifies(s, secret, signature, r, now)
    ensures Lower(signature) == Sign(s, secret, r)
    ensures s.number(r.timestamp).Some? && s.number(r.timestamp).value - 30_000 <= now <= s.number(r.timestamp).value + 30_000
  {
  }

  /** No two messages share a code under one secret. */
  ghost predicate CollisionFree(s: Scheme) {
    forall secret, m, m' :: s.mac(secret, m) == s.mac(secret, m') ==> m == m'
  }

  /** A signature fits one request only, up to the case of its method, and for one minute around its timestamp. */
  lemma SignatureFitsOneRequest(s: Scheme, secret: string, signature: string, r: Request, q: Request, now: int, later: int)
    requires CollisionFree(s) && SingleLines(r) && SingleLines(q)
    requires Verifies(s, secret, signature, r, now) && Verifies(s, secret, signature, q, later)
    ensures r.timestamp == q.timestamp && Upper(r.method_) == Upper(q.method_) && r.uri == q.uri && r.body == q.body
    ensures -2 * MAX_SKEW <= later - now <= 2 * MAX_SKEW
  {
    CanonicalInjective(r, q);
  }
}
