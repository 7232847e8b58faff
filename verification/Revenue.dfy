/**
 The revenue report (internal/admin/revenue.go over the queries of
 internal/admin/queries/reports.sql). Amounts are integers in the smallest unit
 and times are integers. `filter` narrows the report to one asset.
 */
module Revenue {
  import opened Options

  // ---------------------------------------------------------------- books

  datatype Trade = Trade(at: int, makerAsset: string, makerFee: int, takerAsset: string, takerFee: int)

  /** A posting to a house account; a debit is a negative credit. */
  datatype Posting = Posting(account: string, asset: string, credit: int)
  datatype Entry = Entry(at: int, kind: string, postings: seq<Posting>)
  datatype Books = Books(trades: seq<Trade>, entries: seq<Entry>)

  /** The half-open window [start, end). */
  datatype Period = Period(start: int, end: int)

  const FEE_REVENUE := "fee_revenue"
  const GAS_EXPENSE := "gas_expense"
  const KIND_FEE := "fee"
  const KIND_DEPOSIT := "deposit"
  const KIND_SETTLE := "settle"
  const WINDOW := 30 * 24 * 3600      // DefaultRevenueWindow

  predicate In(p: Period, at: int) {
    p.start <= at < p.end
  }

  /** revenuePeriod: both bounds default, an empty or inverted window is refused. */
  function RevenuePeriod(start: Option<int>, end: Option<int>, now: int): (p: Option<Period>)
    ensures p.Some? ==> p.value.start < p.value.end
    ensures p.None? <==> start.Some? && start.value >= (if end.Some? then end.value else now)
    ensures p.Some? && end.Some? ==> p.value.end == end.value
    ensures p.Some? && end.None? ==> p.value.end == now
    ensures p.Some? && start.Some? ==> p.value.start == start.value
    ensures p.Some? && start.None? ==> p.value.end - p.value.start == 30 * 24 * 3600
  {
    var e := if end.Some? then end.value else now;
    var s := if start.Some? then start.value else e - WINDOW;
    if s < e then Some(Period(s, e)) else None
  }

  // ---------------------------------------------------------------- sums over the books

  function If(c: bool, x: int): int {
    if c then x else 0
  }

  function MakerSum(ts: seq<Trade>, p: Period, a: string): int {
    if ts == [] then 0 else MakerSum(ts[1..], p, a) + If(In(p, ts[0].at) && ts[0].makerAsset == a, ts[0].makerFee)
  }

  function TakerSum(ts: seq<Trade>, p: Period, a: string): int {
    if ts == [] then 0 else TakerSum(ts[1..], p, a) + If(In(p, ts[0].at) && ts[0].takerAsset == a, ts[0].takerFee)
  }

  /** The legs charged in a: a trade has one in the asset of each of its two fees. */
  function Legs(ts: seq<Trade>, p: Period, a: string): (n: int)
    ensures n >= 0
  {
    if ts == [] then 0
    else Legs(ts[1..], p, a) + If(In(p, ts[0].at) && ts[0].makerAsset == a, 1) + If(In(p, ts[0].at) && ts[0].takerAsset == a, 1)
  }

  function Credit(ps: seq<Posting>, account: string, a: string): int {
    if ps == [] then 0 else Credit(ps[1..], account, a) + If(ps[0].account == account && ps[0].asset == a, ps[0].credit)
  }

  function Touches(ps: seq<Posting>, account: string, a: string): bool {
    ps != [] && (Touches(ps[1..], account, a) || (ps[0].account == account && ps[0].asset == a))
  }

  /** Net credit on fee_revenue in a over the entries whose kind is among `kinds`. */
  ghost function FeeSum(es: seq<Entry>, p: Period, a: string, kinds: iset<string>): int {
    if es == [] then 0
    else FeeSum(es[1..], p, a, kinds) + If(In(p, es[0].at) && es[0].kind in kinds, Credit(es[0].postings, FEE_REVENUE, a))
  }

  /** count(DISTINCT e.id): every entry is one element. */
  function FeeEntries(es: seq<Entry>, p: Period, a: string, kind: string): (n: int)
    ensures n >= 0
  {
    if es == [] then 0
    else FeeEntries(es[1..], p, a, kind) + If(In(p, es[0].at) && es[0].kind == kind && Touches(es[0].postings, FEE_REVENUE, a), 1)
  }

  function GasSum(es: seq<Entry>, p: Period, a: string): int {
    if es == [] then 0 else GasSum(es[1..], p, a) - If(In(p, es[0].at), Credit(es[0].postings, GAS_EXPENSE, a))
  }

  function GasTouched(es: seq<Entry>, p: Period, a: string): bool {
    es != [] && (GasTouched(es[1..], p, a) || (In(p, es[0].at) && Touches(es[0].postings, GAS_EXPENSE, a)))
  }

  // ---------------------------------------------------------------- what a line should say

  datatype Line = Line(asset: string, makerFees: int, takerFees: int, withdrawalFees: int, depositFees: int, otherFees: int,
                       gasExpense: int, net: int, trades: int, withdrawals: int, deposits: int)

  ghost const OTHER_KINDS: iset<string> := iset k: string | k != KIND_FEE && k != KIND_DEPOSIT && k != KIND_SETTLE
  ghost const REPORTED_KINDS: iset<string> := iset k: string | k != KIND_SETTLE

  function Net(l: Line): int {
    l.makerFees + l.takerFees + l.withdrawalFees + l.depositFees + l.otherFees - l.gasExpense
  }

  ghost function LineAt(b: Books, p: Period, a: string): Line {
    var l := Line(a, MakerSum(b.trades, p, a), TakerSum(b.trades, p, a), FeeSum(b.entries, p, a, iset{KIND_FEE}),
                  FeeSum(b.entries, p, a, iset{KIND_DEPOSIT}), FeeSum(b.entries, p, a, OTHER_KINDS), GasSum(b.entries, p, a), 0,
                  Legs(b.trades, p, a), FeeEntries(b.entries, p, a, KIND_FEE), FeeEntries(b.entries, p, a, KIND_DEPOSIT));
    l.(net := Net(l))
  }

  ghost predicate HasFees(b: Books, p: Period, a: string) {
    exists k :: k != KIND_SETTLE && FeeEntries(b.entries, p, a, k) > 0
  }

  ghost predicate HasSource(b: Books, p: Period, a: string) {
    Legs(b.trades, p, a) > 0 || HasFees(b, p, a) || GasTouched(b.entries, p, a)
  }

  // ---------------------------------------------------------------- what the queries answer

  datatype TradeRow = TradeRow(asset: string, maker: int, taker: int, trades: int)
  datatype FeeRow = FeeRow(asset: string, kind: string, net: int, entries: int)
  datatype GasRow = GasRow(asset: string, net: int)

  predicate Wanted(filter: string, a: string) {
    filter == "" || a == filter
  }

  /** RevenueTradingFees: GROUP BY asset. */
  ghost predicate TradingFees(rs: seq<TradeRow>, b: Books, p: Period, filter: string) {
    && (forall i, j :: 0 <= i < j < |rs| ==> rs[i].asset != rs[j].asset)
    && (forall i :: 0 <= i < |rs| ==>
        var a := rs[i].asset;
        && Wanted(filter, a) && Legs(b.trades, p, a) > 0
        && rs[i] == TradeRow(a, MakerSum(b.trades, p, a), TakerSum(b.trades, p, a), Legs(b.trades, p, a)))
    && (forall a :: Wanted(filter, a) && Legs(b.trades, p, a) > 0 ==> exists i :: 0 <= i < |rs| && rs[i].asset == a)
  }

  /** RevenueFeeRevenue: GROUP BY asset and kind, without settlements. */
  ghost predicate FeeRevenue(rs: seq<FeeRow>, b: Books, p: Period, filter: string) {
    && (forall i, j :: 0 <= i < j < |rs| ==> rs[i].asset != rs[j].asset || rs[i].kind != rs[j].kind)
    && (forall i :: 0 <= i < |rs| ==>
        var a := rs[i].asset; var k := rs[i].kind;
        && Wanted(filter, a) && k != KIND_SETTLE && FeeEntries(b.entries, p, a, k) > 0
        && rs[i].net == FeeSum(b.entries, p, a, iset{k}) && rs[i].entries == FeeEntries(b.entries, p, a, k))
    && (forall a, k :: Wanted(filter, a) && k != KIND_SETTLE && FeeEntries(b.entries, p, a, k) > 0 ==>
        exists i :: 0 <= i < |rs| && rs[i].asset == a && rs[i].kind == k)
  }

  /** RevenueGasExpense: GROUP BY asset. */
  ghost predicate GasExpense(rs: seq<GasRow>, b: Books, p: Period, filter: string) {
    && (forall i, j :: 0 <= i < j < |rs| ==> rs[i].asset != rs[j].asset)
    && (forall i :: 0 <= i < |rs| ==>
        Wanted(filter, rs[i].asset) && GasTouched(b.entries, p, rs[i].asset) && rs[i].net == GasSum(b.entries, p, rs[i].asset))
    && (forall a :: Wanted(filter, a) && GasTouched(b.entries, p, a) ==> exists i :: 0 <= i < |rs| && rs[i].asset == a)
  }

  // ---------------------------------------------------------------- facts about the sums

  lemma {:induction false} NoLegsNoFees(ts: seq<Trade>, p: Period, a: string)
    requires Legs(ts, p, a) == 0
    ensures MakerSum(ts, p, a) == 0 && TakerSum(ts, p, a) == 0
    decreases |ts|
  {
    if ts != [] { NoLegsNoFees(ts[1..], p, a); }
  }

  lemma {:induction false} UntouchedNoCredit(ps: seq<Posting>, account: string, a: string)
    requires !Touches(ps, account, a)
    ensures Credit(ps, account, a) == 0
    decreases |ps|
  {
    if ps != [] { UntouchedNoCredit(ps[1..], account, a); }
  }

  lemma {:induction false} UntouchedNoGas(es: seq<Entry>, p: Period, a: string)
    requires !GasTouched(es, p, a)
    ensures GasSum(es, p, a) == 0
    decreases |es|
  {
    if es != [] {
      UntouchedNoGas(es[1..], p, a);
      if In(p, es[0].at) { UntouchedNoCredit(es[0].postings, GAS_EXPENSE, a); }
    }
  }

  /** Kinds without entries contribute nothing. */
  lemma {:induction false} IdleKinds(es: seq<Entry>, p: Period, a: string, ks: iset<string>, ls: iset<string>)
    requires ks <= ls && forall k :: k in ls && k !in ks ==> FeeEntries(es, p, a, k) == 0
    ensures FeeSum(es, p, a, ks) == FeeSum(es, p, a, ls)
    decreases |es|
  {
    if es != [] {
      forall k | k in ls && k !in ks ensures FeeEntries(es[1..], p, a, k) == 0 {
        assert FeeEntries(es, p, a, k) == 0;
      }
      IdleKinds(es[1..], p, a, ks, ls);
      var k := es[0].kind;
      if In(p, es[0].at) && k in ls && k !in ks {
        assert FeeEntries(es, p, a, k) == 0;
        UntouchedNoCredit(es[0].postings, FEE_REVENUE, a);
      }
    }
  }

  lemma {:induction false} KindsAdd(es: seq<Entry>, p: Period, a: string, ks: iset<string>, ls: iset<string>)
    requires ks !! ls
    ensures FeeSum(es, p, a, ks + ls) == FeeSum(es, p, a, ks) + FeeSum(es, p, a, ls)
    decreases |es|
  {
    if es != [] { KindsAdd(es[1..], p, a, ks, ls); }
  }

  /** No fee revenue is lost whatever its kind, and Net is all of it minus the gas. */
  lemma NothingMissing(b: Books, p: Period, a: string)
    ensures var l := LineAt(b, p, a);
      && l.withdrawalFees + l.depositFees + l.otherFees == FeeSum(b.entries, p, a, REPORTED_KINDS)
      && l.net == MakerSum(b.trades, p, a) + TakerSum(b.trades, p, a) + FeeSum(b.entries, p, a, REPORTED_KINDS) - GasSum(b.entries, p, a)
  {
    KindsAdd(b.entries, p, a, iset{KIND_FEE}, iset{KIND_DEPOSIT});
    KindsAdd(b.entries, p, a, iset{KIND_FEE} + iset{KIND_DEPOSIT}, OTHER_KINDS);
    assert REPORTED_KINDS == iset{KIND_FEE} + iset{KIND_DEPOSIT} + OTHER_KINDS;
  }

  // ---------------------------------------------------------------- adjacent periods

  lemma {:induction false} TradesAdd(ts: seq<Trade>, p: Period, q: Period, a: string)
    requires p.start <= p.end == q.start <= q.end
    ensures var pq := Period(p.start, q.end);
      && MakerSum(ts, pq, a) == MakerSum(ts, p, a) + MakerSum(ts, q, a)
      && TakerSum(ts, pq, a) == TakerSum(ts, p, a) + TakerSum(ts, q, a)
      && Legs(ts, pq, a) == Legs(ts, p, a) + Legs(ts, q, a)
    decreases |ts|
  {
    if ts != [] { TradesAdd(ts[1..], p, q, a); }
  }

  lemma {:induction false} EntriesAdd(es: seq<Entry>, p: Period, q: Period, a: string, ks: iset<string>, k: string)
    requires p.start <= p.end == q.start <= q.end
    ensures var pq := Period(p.start, q.end);
      && FeeSum(es, pq, a, ks) == FeeSum(es, p, a, ks) + FeeSum(es, q, a, ks)
      && FeeEntries(es, pq, a, k) == FeeEntries(es, p, a, k) + FeeEntries(es, q, a, k)
      && GasSum(es, pq, a) == GasSum(es, p, a) + GasSum(es, q, a)
      && (GasTouched(es, pq, a) <==> GasTouched(es, p, a) || GasTouched(es, q, a))
    decreases |es|
  {
    if es != [] { EntriesAdd(es[1..], p, q, a, ks, k); }
  }

  function Plus(l: Line, m: Line): Line {
    Line(l.asset, l.makerFees + m.makerFees, l.takerFees + m.takerFees, l.withdrawalFees + m.withdrawalFees,
         l.depositFees + m.depositFees, l.otherFees + m.otherFees, l.gasExpense + m.gasExpense, l.net + m.net,
         l.trades + m.trades, l.withdrawals + m.withdrawals, l.deposits + m.deposits)
  }

  /** Reports over adjacent periods add line by line to the report over their union, and list the same assets between them. */
  lemma PeriodsAdd(b: Books, p: Period, q: Period, a: string)
    requires p.start <= p.end == q.start <= q.end
    ensures var pq := Period(p.start, q.end);
      && LineAt(b, pq, a) == Plus(LineAt(b, p, a), LineAt(b, q, a))
      && (HasSource(b, pq, a) <==> HasSource(b, p, a) || HasSource(b, q, a))
  {
    TradesAdd(b.trades, p, q, a);
    EntriesAdd(b.entries, p, q, a, iset{KIND_FEE}, KIND_FEE);
    EntriesAdd(b.entries, p, q, a, iset{KIND_DEPOSIT}, KIND_DEPOSIT);
    EntriesAdd(b.entries, p, q, a, OTHER_KINDS, KIND_FEE);
    forall k ensures FeeEntries(b.entries, Period(p.start, q.end), a, k) ==
        FeeEntries(b.entries, p, a, k) + FeeEntries(b.entries, q, a, k) {
      EntriesAdd(b.entries, p, q, a, OTHER_KINDS, k);
    }
  }

  /** An asset missing from a report counts as a line of zeros. */
  lemma SourcelessIsZero(b: Books, p: Period, a: string)
    requires !HasSource(b, p, a)
    ensures LineAt(b, p, a) == Blank(a)
  {
    NoLegsNoFees(b.trades, p, a);
    UntouchedNoGas(b.entries, p, a);
    NoKinds(b.entries, p, a);
    forall k | k != KIND_SETTLE ensures FeeEntries(b.entries, p, a, k) == 0 {
      assert !(FeeEntries(b.entries, p, a, k) > 0);
    }
    IdleKinds(b.entries, p, a, iset{}, iset{KIND_FEE});
    IdleKinds(b.entries, p, a, iset{}, iset{KIND_DEPOSIT});
    IdleKinds(b.entries, p, a, iset{}, OTHER_KINDS);
  }

  lemma {:induction false} NoKinds(es: seq<Entry>, p: Period, a: string)
    ensures FeeSum(es, p, a, iset{}) == 0
    decreases |es|
  {
    if es != [] { NoKinds(es[1..], p, a); }
  }

  // ---------------------------------------------------------------- one trade, one posting

  /** What one trade adds to a line: each fee in its own asset, one leg for each fee. */
  lemma TradeAdds(t: Trade, ts: seq<Trade>, p: Period, a: string)
    ensures var more := [t] + ts; var counts := p.start <= t.at < p.end;
      && MakerSum(more, p, a) == MakerSum(ts, p, a) + (if counts && t.makerAsset == a then t.makerFee else 0)
      && TakerSum(more, p, a) == TakerSum(ts, p, a) + (if counts && t.takerAsset == a then t.takerFee else 0)
      && Legs(more, p, a) == Legs(ts, p, a) + (if counts && t.makerAsset == a then 1 else 0) + (if counts && t.takerAsset == a then 1 else 0)
    ensures MakerSum([], p, a) == 0 && TakerSum([], p, a) == 0 && Legs([], p, a) == 0
  {
    assert ([t] + ts)[1..] == ts;
  }

  /** What one journal entry adds: its credits to fee revenue under its kind, its debits to gas expense as cost. */
  lemma EntryAdds(e: Entry, es: seq<Entry>, p: Period, a: string, ks: iset<string>, kind: string)
    ensures var more := [e] + es; var counts := p.start <= e.at < p.end;
      && FeeSum(more, p, a, ks) == FeeSum(es, p, a, ks) + (if counts && e.kind in ks then Credit(e.postings, "fee_revenue", a) else 0)
      && GasSum(more, p, a) == GasSum(es, p, a) - (if counts then Credit(e.postings, "gas_expense", a) else 0)
      && FeeEntries(more, p, a, kind) ==
          FeeEntries(es, p, a, kind) + (if counts && e.kind == kind && Touches(e.postings, "fee_revenue", a) then 1 else 0)
      && (GasTouched(more, p, a) <==> GasTouched(es, p, a) || (counts && Touches(e.postings, "gas_expense", a)))
    ensures FeeSum([], p, a, ks) == 0 && GasSum([], p, a) == 0 && FeeEntries([], p, a, kind) == 0 && !GasTouched([], p, a)
  {
    assert ([e] + es)[1..] == es;
  }

  lemma PostingAdds(x: Posting, ps: seq<Posting>, account: string, a: string)
    ensures Credit([x] + ps, account, a) == Credit(ps, account, a) + (if x.account == account && x.asset == a then x.credit else 0)
    ensures Touches([x] + ps, account, a) <==> Touches(ps, account, a) || (x.account == account && x.asset == a)
    ensures Credit([], account, a) == 0 && !Touches([], account, a)
  {
    assert ([x] + ps)[1..] == ps;
  }

  /** Which sum stands in which column. */
  lemma ColumnsOfLine(b: Books, p: Period, a: string)
    ensures var l := LineAt(b, p, a);
      && l.asset == a && l.makerFees == MakerSum(b.trades, p, a) && l.takerFees == TakerSum(b.trades, p, a)
      && l.withdrawalFees == FeeSum(b.entries, p, a, iset{"fee"}) && l.depositFees == FeeSum(b.entries, p, a, iset{"deposit"})
      && l.gasExpense == GasSum(b.entries, p, a) && l.trades == Legs(b.trades, p, a)
      && l.withdrawals == FeeEntries(b.entries, p, a, "fee") && l.deposits == FeeEntries(b.entries, p, a, "deposit")
      && l.net == l.makerFees + l.takerFees + l.withdrawalFees + l.depositFees + l.otherFees - l.gasExpense
  {
  }

  lemma {:induction false} LegsIff(ts: seq<Trade>, p: Period, a: string)
    ensures Legs(ts, p, a) > 0 <==>
      exists i :: 0 <= i < |ts| && p.start <= ts[i].at < p.end && (ts[i].makerAsset == a || ts[i].takerAsset == a)
    decreases |ts|
  {
    if ts != [] {
      LegsIff(ts[1..], p, a);
      assert forall i :: 0 < i < |ts| ==> ts[i] == ts[1..][i - 1];
    }
  }

  lemma {:induction false} FeeEntriesIff(es: seq<Entry>, p: Period, a: string, kind: string)
    ensures FeeEntries(es, p, a, kind) > 0 <==>
      exists i :: 0 <= i < |es| && p.start <= es[i].at < p.end && es[i].kind == kind && Touches(es[i].postings, "fee_revenue", a)
    decreases |es|
  {
    if es != [] {
      FeeEntriesIff(es[1..], p, a, kind);
      assert forall i :: 0 < i < |es| ==> es[i] == es[1..][i - 1];
    }
  }

  lemma {:induction false} GasTouchedIff(es: seq<Entry>, p: Period, a: string)
    ensures GasTouched(es, p, a) <==>
      exists i :: 0 <= i < |es| && p.start <= es[i].at < p.end && Touches(es[i].postings, "gas_expense", a)
    decreases |es|
  {
    if es != [] {
      GasTouchedIff(es[1..], p, a);
      assert forall i :: 0 < i < |es| ==> es[i] == es[1..][i - 1];
    }
  }

  ghost predicate TradedIn(b: Books, p: Period, a: string) {
    exists i :: 0 <= i < |b.trades| && p.start <= b.trades[i].at < p.end && (b.trades[i].makerAsset == a || b.trades[i].takerAsset == a)
  }

  ghost predicate ChargedIn(b: Books, p: Period, a: string) {
    exists i :: 0 <= i < |b.entries| && p.start <= b.entries[i].at < p.end && b.entries[i].kind != "settle"
      && Touches(b.entries[i].postings, "fee_revenue", a)
  }

  ghost predicate SpentIn(b: Books, p: Period, a: string) {
    exists i :: 0 <= i < |b.entries| && p.start <= b.entries[i].at < p.end && Touches(b.entries[i].postings, "gas_expense", a)
  }

  /** An asset has a line exactly when a fee leg, a fee posting other than a settlement's, or a gas posting in the period is in it. */
  lemma SourceIff(b: Books, p: Period, a: string)
    ensures HasSource(b, p, a) <==> TradedIn(b, p, a) || ChargedIn(b, p, a) || SpentIn(b, p, a)
  {
    LegsIff(b.trades, p, a);
    GasTouchedIff(b.entries, p, a);
    forall kind ensures FeeEntries(b.entries, p, a, kind) > 0 <==>
        exists i :: 0 <= i < |b.entries| && p.start <= b.entries[i].at < p.end && b.entries[i].kind == kind
          && Touches(b.entries[i].postings, "fee_revenue", a) {
      FeeEntriesIff(b.entries, p, a, kind);
    }
    if ChargedIn(b, p, a) {
      var i :| 0 <= i < |b.entries| && p.start <= b.entries[i].at < p.end && b.entries[i].kind != "settle"
        && Touches(b.entries[i].postings, "fee_revenue", a);
      assert FeeEntries(b.entries, p, a, b.entries[i].kind) > 0;
    }
  }

  // ---------------------------------------------------------------- order of the lines

  /** strings.Compare(a, b) < 0. */
  predicate Before(a: string, b: string) {
    b != "" && (a == "" || a[0] < b[0] || (a[0] == b[0] && Before(a[1..], b[1..])))
  }

  lemma {:induction false} BeforeTransitive(a: string, b: string, c: string)
    requires Before(a, b) && Before(b, c)
    ensures Before(a, c)
    decreases |a|
  {
    if a != "" && a[0] == b[0] == c[0] { BeforeTransitive(a[1..], b[1..], c[1..]); }
  }

  lemma {:induction false} BeforeTotal(a: string, b: string)
    ensures Before(a, b) || a == b || Before(b, a)
    ensures !(Before(a, b) && (a == b || Before(b, a)))
    decreases |a|
  {
    if a != "" && b != "" {
      BeforeTotal(a[1..], b[1..]);
      if a[0] == b[0] && a[1..] == b[1..] { assert a == [a[0]] + a[1..] && b == [b[0]] + b[1..]; }
    }
  }

  ghost predicate Sorted(ls: seq<Line>) {
    forall i, j :: 0 <= i < j < |ls| ==> Before(ls[i].asset, ls[j].asset)
  }

  /** Put a line where it belongs. */
  function InsertLine(ls: seq<Line>, l: Line): (r: seq<Line>)
    ensures |r| == |ls| + 1
    ensures forall x :: x in r <==> x in ls || x == l
  {
    if ls == [] || Before(l.asset, ls[0].asset) then [l] + ls
    else
      assert forall x :: x in ls <==> x == ls[0] || x in ls[1..];
      [ls[0]] + InsertLine(ls[1..], l)
  }

  lemma {:induction false} InsertSorted(ls: seq<Line>, l: Line)
    requires Sorted(ls) && forall x :: x in ls ==> x.asset != l.asset
    ensures Sorted(InsertLine(ls, l))
    decreases |ls|
  {
    if ls == [] {
    } else if Before(l.asset, ls[0].asset) {
      forall i | 0 <= i < |ls| ensures Before(l.asset, ls[i].asset) {
        if i > 0 { BeforeTransitive(l.asset, ls[0].asset, ls[i].asset); }
      }
    } else {
      BeforeTotal(l.asset, ls[0].asset);
      assert ls[0] in ls;
      InsertSorted(ls[1..], l);
      var r := InsertLine(ls[1..], l);
      forall i | 0 <= i < |r| ensures Before(ls[0].asset, r[i].asset) {
        assert r[i] in r;
        assert forall x :: x in ls[1..] ==> Before(ls[0].asset, x.asset);
      }
    }
  }

  method SortByAsset(ls: seq<Line>) returns (r: seq<Line>)
    requires forall i, j :: 0 <= i < j < |ls| ==> ls[i].asset != ls[j].asset
    ensures Sorted(r) && |r| == |ls| && forall x :: x in r <==> x in ls
  {
    r := [];
    for n := 0 to |ls|
      invariant Sorted(r) && |r| == n && forall x :: x in r <==> x in ls[..n]
    {
      forall x | x in r ensures x.asset != ls[n].asset {
        var i :| 0 <= i < n && ls[..n][i] == x;
      }
      InsertSorted(r, ls[n]);
      r := InsertLine(r, ls[n]);
      assert ls[..n + 1] == ls[..n] + [ls[n]];
    }
    assert ls[..|ls|] == ls;
  }

  // ---------------------------------------------------------------- the report

  /** The wanted assets with any source, each once, in order, each line saying what it should. */
  ghost predicate Report(out: seq<Line>, b: Books, p: Period, filter: string) {
    && Sorted(out)
    && (forall i :: 0 <= i < |out| ==>
        Wanted(filter, out[i].asset) && HasSource(b, p, out[i].asset) && out[i] == LineAt(b, p, out[i].asset))
    && (forall a :: Wanted(filter, a) && HasSource(b, p, a) ==> LineAt(b, p, a) in out)
  }

  function Blank(a: string): Line {
    Line(a, 0, 0, 0, 0, 0, 0, 0, 0, 0, 0)
  }

  function LineIn(lines: map<string, Line>, a: string): Line {
    if a in lines then lines[a] else Blank(a)
  }

  function AddFee(l: Line, r: FeeRow): Line {
    if r.kind == KIND_FEE then l.(withdrawalFees := l.withdrawalFees + r.net, withdrawals := l.withdrawals + r.entries)
    else if r.kind == KIND_DEPOSIT then l.(depositFees := l.depositFees + r.net, deposits := l.deposits + r.entries)
    else l.(otherFees := l.otherFees + r.net)
  }

  ghost function TradeAssets(rs: seq<TradeRow>): set<string> {
    set i | 0 <= i < |rs| :: rs[i].asset
  }

  ghost function FeeAssets(rs: seq<FeeRow>): set<string> {
    set i | 0 <= i < |rs| :: rs[i].asset
  }

  ghost function GasAssets(rs: seq<GasRow>): set<string> {
    set i | 0 <= i < |rs| :: rs[i].asset
  }

  ghost function KindsOf(rs: seq<FeeRow>, a: string): iset<string> {
    iset i | 0 <= i < |rs| && rs[i].asset == a :: rs[i].kind
  }

  /** The line of a so far: its trading fees if they have been read, the fees of the kinds read, its gas if read. */
  ghost function Partial(b: Books, p: Period, a: string, traded: bool, kinds: iset<string>, gas: bool): Line {
    Line(a, If(traded, MakerSum(b.trades, p, a)), If(traded, TakerSum(b.trades, p, a)),
         FeeSum(b.entries, p, a, kinds * iset{KIND_FEE}), FeeSum(b.entries, p, a, kinds * iset{KIND_DEPOSIT}),
         FeeSum(b.entries, p, a, kinds * OTHER_KINDS), If(gas, GasSum(b.entries, p, a)), 0, If(traded, Legs(b.trades, p, a)),
         If(KIND_FEE in kinds, FeeEntries(b.entries, p, a, KIND_FEE)),
         If(KIND_DEPOSIT in kinds, FeeEntries(b.entries, p, a, KIND_DEPOSIT)))
  }

  lemma BlankPartial(b: Books, p: Period, a: string)
    ensures Partial(b, p, a, false, iset{}, false) == Blank(a)
  {
    NoKinds(b.entries, p, a);
    assert iset{} * iset{KIND_FEE} == iset{} && iset{} * iset{KIND_DEPOSIT} == iset{} && iset{} * OTHER_KINDS == iset{};
  }

  /** Reading one more kind. */
  lemma FeeStep(b: Books, p: Period, a: string, traded: bool, kinds: iset<string>, r: FeeRow)
    requires r.asset == a && r.kind !in kinds && r.kind != KIND_SETTLE
    requires r.net == FeeSum(b.entries, p, a, iset{r.kind}) && r.entries == FeeEntries(b.entries, p, a, r.kind)
    ensures AddFee(Partial(b, p, a, traded, kinds, false), r) == Partial(b, p, a, traded, kinds + iset{r.kind}, false)
  {
    FeeStepIn(b, p, a, kinds, r.kind, iset{KIND_FEE});
    FeeStepIn(b, p, a, kinds, r.kind, iset{KIND_DEPOSIT});
    FeeStepIn(b, p, a, kinds, r.kind, OTHER_KINDS);
  }

  lemma FeeStepIn(b: Books, p: Period, a: string, kinds: iset<string>, k: string, column: iset<string>)
    requires k !in kinds
    ensures FeeSum(b.entries, p, a, (kinds + iset{k}) * column) ==
      FeeSum(b.entries, p, a, kinds * column) + If(k in column, FeeSum(b.entries, p, a, iset{k}))
  {
    if k in column {
      KindsAdd(b.entries, p, a, kinds * column, iset{k});
      assert (kinds + iset{k}) * column == kinds * column + iset{k};
    } else {
      assert (kinds + iset{k}) * column == kinds * column;
    }
  }

  // What the rows say, one asset at a time.

  function TradePart(rs: seq<TradeRow>, a: string, l: Line): Line {
    if rs == [] then l
    else
      var r := rs[|rs| - 1]; var before := TradePart(rs[..|rs| - 1], a, l);
      if r.asset == a then before.(makerFees := r.maker, takerFees := r.taker, trades := r.trades) else before
  }

  function FeePart(rs: seq<FeeRow>, a: string, l: Line): Line {
    if rs == [] then l
    else
      var r := rs[|rs| - 1]; var before := FeePart(rs[..|rs| - 1], a, l);
      if r.asset == a then AddFee(before, r) else before
  }

  function GasPart(rs: seq<GasRow>, a: string, l: Line): Line {
    if rs == [] then l
    else
      var r := rs[|rs| - 1]; var before := GasPart(rs[..|rs| - 1], a, l);
      if r.asset == a then before.(gasExpense := r.net) else before
  }

  lemma {:induction false} TradePartIs(b: Books, p: Period, filter: string, rs: seq<TradeRow>, n: nat, a: string)
    requires TradingFees(rs, b, p, filter) && n <= |rs|
    ensures TradePart(rs[..n], a, Blank(a)) == Partial(b, p, a, a in TradeAssets(rs[..n]), iset{}, false)
    decreases n
  {
    BlankPartial(b, p, a);
    if n > 0 {
      TradePartIs(b, p, filter, rs, n - 1, a);
      assert rs[..n][..n - 1] == rs[..n - 1];
      assert rs[..n] == rs[..n - 1] + [rs[n - 1]];
      assert TradeAssets(rs[..n]) == TradeAssets(rs[..n - 1]) + {rs[n - 1].asset};
    }
  }

  /** The row after a prefix names a new pair of asset and kind. */
  lemma NewKind(fs: seq<FeeRow>, b: Books, p: Period, filter: string, j: nat)
    requires FeeRevenue(fs, b, p, filter) && j < |fs|
    ensures fs[j].kind !in KindsOf(fs[..j], fs[j].asset)
    ensures forall a :: KindsOf(fs[..j + 1], a) == KindsOf(fs[..j], a) + if a == fs[j].asset then iset{fs[j].kind} else iset{}
  {
    assert fs[..j + 1] == fs[..j] + [fs[j]];
  }

  lemma {:induction false} FeePartIs(b: Books, p: Period, filter: string, rs: seq<FeeRow>, n: nat, a: string, traded: bool)
    requires FeeRevenue(rs, b, p, filter) && n <= |rs|
    ensures FeePart(rs[..n], a, Partial(b, p, a, traded, iset{}, false)) == Partial(b, p, a, traded, KindsOf(rs[..n], a), false)
    decreases n
  {
    if n == 0 {
      assert KindsOf(rs[..n], a) == iset{};
    } else {
      FeePartIs(b, p, filter, rs, n - 1, a, traded);
      assert rs[..n][..n - 1] == rs[..n - 1];
      NewKind(rs, b, p, filter, n - 1);
      if rs[n - 1].asset == a { FeeStep(b, p, a, traded, KindsOf(rs[..n - 1], a), rs[n - 1]); }
      else { assert KindsOf(rs[..n], a) == KindsOf(rs[..n - 1], a); }
    }
  }

  lemma {:induction false} GasPartIs(b: Books, p: Period, filter: string, rs: seq<GasRow>, n: nat, a: string, traded: bool, ks: iset<string>)
    requires GasExpense(rs, b, p, filter) && n <= |rs|
    ensures GasPart(rs[..n], a, Partial(b, p, a, traded, ks, false)) == Partial(b, p, a, traded, ks, a in GasAssets(rs[..n]))
    decreases n
  {
    if n > 0 {
      GasPartIs(b, p, filter, rs, n - 1, a, traded, ks);
      assert rs[..n][..n - 1] == rs[..n - 1];
      assert rs[..n] == rs[..n - 1] + [rs[n - 1]];
      assert GasAssets(rs[..n]) == GasAssets(rs[..n - 1]) + {rs[n - 1].asset};
    }
  }

  /** The fees of an asset once every kind the query answered has been read. */
  lemma AllKindsRead(b: Books, p: Period, filter: string, fs: seq<FeeRow>, a: string)
    requires FeeRevenue(fs, b, p, filter) && Wanted(filter, a)
    ensures var ks := KindsOf(fs, a);
      && FeeSum(b.entries, p, a, ks * iset{KIND_FEE}) == FeeSum(b.entries, p, a, iset{KIND_FEE})
      && FeeSum(b.entries, p, a, ks * iset{KIND_DEPOSIT}) == FeeSum(b.entries, p, a, iset{KIND_DEPOSIT})
      && FeeSum(b.entries, p, a, ks * OTHER_KINDS) == FeeSum(b.entries, p, a, OTHER_KINDS)
      && (KIND_FEE !in ks ==> FeeEntries(b.entries, p, a, KIND_FEE) == 0)
      && (KIND_DEPOSIT !in ks ==> FeeEntries(b.entries, p, a, KIND_DEPOSIT) == 0)
    ensures a in FeeAssets(fs) <==> HasFees(b, p, a)
  {
    var ks := KindsOf(fs, a);
    assert forall i :: 0 <= i < |fs| && fs[i].asset == a ==> fs[i].kind in ks;
    forall k | k !in ks && k != KIND_SETTLE ensures FeeEntries(b.entries, p, a, k) == 0 {
      assert FeeEntries(b.entries, p, a, k) >= 0;
    }
    IdleKinds(b.entries, p, a, ks * iset{KIND_FEE}, iset{KIND_FEE});
    IdleKinds(b.entries, p, a, ks * iset{KIND_DEPOSIT}, iset{KIND_DEPOSIT});
    IdleKinds(b.entries, p, a, ks * OTHER_KINDS, OTHER_KINDS);
    assert a in FeeAssets(fs) ==> HasFees(b, p, a) by {
      if i :| 0 <= i < |fs| && fs[i].asset == a {
        assert FeeEntries(b.entries, p, a, fs[i].kind) > 0;
      }
    }
  }

  function Folded(ts: seq<TradeRow>, fs: seq<FeeRow>, gs: seq<GasRow>, a: string): Line {
    GasPart(gs, a, FeePart(fs, a, TradePart(ts, a, Blank(a))))
  }

  /** Once every row is read, the line is complete. */
  lemma FoldedComplete(b: Books, p: Period, filter: string, ts: seq<TradeRow>, fs: seq<FeeRow>, gs: seq<GasRow>, a: string)
    requires TradingFees(ts, b, p, filter) && FeeRevenue(fs, b, p, filter) && GasExpense(gs, b, p, filter) && Wanted(filter, a)
    ensures Folded(ts, fs, gs, a).(net := Net(Folded(ts, fs, gs, a))) == LineAt(b, p, a)
    ensures a in TradeAssets(ts) || a in FeeAssets(fs) || a in GasAssets(gs) <==> HasSource(b, p, a)
  {
    assert ts[..|ts|] == ts && fs[..|fs|] == fs && gs[..|gs|] == gs;
    TradePartIs(b, p, filter, ts, |ts|, a);
    FeePartIs(b, p, filter, fs, |fs|, a, a in TradeAssets(ts));
    GasPartIs(b, p, filter, gs, |gs|, a, a in TradeAssets(ts), KindsOf(fs, a));
    AllKindsRead(b, p, filter, fs, a);
    if a !in TradeAssets(ts) { NoLegsNoFees(b.trades, p, a); }
    if a !in GasAssets(gs) { UntouchedNoGas(b.entries, p, a); }
  }

  method FoldTrades(ts: seq<TradeRow>) returns (lines: map<string, Line>)
    ensures lines.Keys == TradeAssets(ts)
    ensures forall a :: LineIn(lines, a) == TradePart(ts, a, Blank(a))
  {
    lines := map[];
    for i := 0 to |ts|
      invariant lines.Keys == TradeAssets(ts[..i])
      invariant forall a :: LineIn(lines, a) == TradePart(ts[..i], a, Blank(a))
    {
      var r := ts[i];
      lines := lines[r.asset := LineIn(lines, r.asset).(makerFees := r.maker, takerFees := r.taker, trades := r.trades)];
      assert ts[..i + 1][..i] == ts[..i];
      assert ts[..i + 1] == ts[..i] + [r];
      assert TradeAssets(ts[..i + 1]) == TradeAssets(ts[..i]) + {r.asset};
    }
    assert ts[..|ts|] == ts;
  }

  lemma FeePartNext(fs: seq<FeeRow>, j: nat, a: string, l: Line)
    requires j < |fs|
    ensures FeePart(fs[..j + 1], a, l) == var before := FeePart(fs[..j], a, l); if fs[j].asset == a then AddFee(before, fs[j]) else before
  {
    assert fs[..j + 1][..j] == fs[..j];
  }

  method FoldFees(fs: seq<FeeRow>, lines0: map<string, Line>) returns (lines: map<string, Line>)
    ensures lines.Keys == lines0.Keys + FeeAssets(fs)
    ensures forall a :: LineIn(lines, a) == FeePart(fs, a, LineIn(lines0, a))
  {
    lines := lines0;
    for j := 0 to |fs|
      invariant lines.Keys == lines0.Keys + FeeAssets(fs[..j])
      invariant forall a :: LineIn(lines, a) == FeePart(fs[..j], a, LineIn(lines0, a))
    {
      var r := fs[j];
      ghost var before := lines;
      lines := lines[r.asset := AddFee(LineIn(lines, r.asset), r)];
      assert fs[..j + 1] == fs[..j] + [r];
      forall a ensures LineIn(lines, a) == FeePart(fs[..j + 1], a, LineIn(lines0, a)) {
        FeePartNext(fs, j, a, LineIn(lines0, a));
        assert LineIn(before, a) == FeePart(fs[..j], a, LineIn(lines0, a));
      }
      assert FeeAssets(fs[..j + 1]) == FeeAssets(fs[..j]) + {r.asset};
    }
    assert fs[..|fs|] == fs;
  }

  method FoldGas(gs: seq<GasRow>, lines0: map<string, Line>) returns (lines: map<string, Line>)
    ensures lines.Keys == lines0.Keys + GasAssets(gs)
    ensures forall a :: LineIn(lines, a) == GasPart(gs, a, LineIn(lines0, a))
  {
    lines := lines0;
    for k := 0 to |gs|
      invariant lines.Keys == lines0.Keys + GasAssets(gs[..k])
      invariant forall a :: LineIn(lines, a) == GasPart(gs[..k], a, LineIn(lines0, a))
    {
      var r := gs[k];
      lines := lines[r.asset := LineIn(lines, r.asset).(gasExpense := r.net)];
      assert gs[..k + 1][..k] == gs[..k];
      assert gs[..k + 1] == gs[..k] + [r];
      assert GasAssets(gs[..k + 1]) == GasAssets(gs[..k]) + {r.asset};
    }
    assert gs[..|gs|] == gs;
  }

  /** A report has a line for exactly the assets asked for that have a source. */
  lemma ReportListsSources(out: seq<Line>, b: Books, p: Period, filter: string)
    requires Report(out, b, p, filter)
    ensures filter != "" ==> forall i :: 0 <= i < |out| ==> out[i].asset == filter
    ensures forall a :: (filter == "" || a == filter) ==>
      ((exists i :: 0 <= i < |out| && out[i].asset == a) <==> HasSource(b, p, a))
  {
    forall a | (filter == "" || a == filter) && HasSource(b, p, a) ensures exists i :: 0 <= i < |out| && out[i].asset == a {
      assert Wanted(filter, a) && LineAt(b, p, a).asset == a;
      var i :| 0 <= i < |out| && out[i] == LineAt(b, p, a);
    }
  }

  /** Revenue: three sources folded into one map, totalled, and sorted. */
  method Revenue(ghost b: Books, ghost p: Period, filter: string, ts: seq<TradeRow>, fs: seq<FeeRow>, gs: seq<GasRow>)
    returns (out: seq<Line>)
    requires TradingFees(ts, b, p, filter) && FeeRevenue(fs, b, p, filter) && GasExpense(gs, b, p, filter)
    ensures Report(out, b, p, filter)
    ensures filter != "" ==> forall i :: 0 <= i < |out| ==> out[i].asset == filter
    ensures forall a :: (filter == "" || a == filter) ==>
      ((exists i :: 0 <= i < |out| && out[i].asset == a) <==> HasSource(b, p, a))
  {
    var lines := FoldTrades(ts);
    lines := FoldFees(fs, lines);
    lines := FoldGas(gs, lines);
    assert forall a :: LineIn(lines, a) == Folded(ts, fs, gs, a);
    forall a | Wanted(filter, a)
      ensures a in lines <==> HasSource(b, p, a)
      ensures a in lines ==> lines[a].(net := Net(lines[a])) == LineAt(b, p, a)
    {
      FoldedComplete(b, p, filter, ts, fs, gs, a);
    }
    assert forall a :: a in lines ==> Wanted(filter, a);
    out := Total(lines);
    assert forall i :: 0 <= i < |out| ==> out[i] in out;
    forall a | Wanted(filter, a) && HasSource(b, p, a) ensures LineAt(b, p, a) in out {
      assert LineAt(b, p, a).asset == a;
    }
    ReportListsSources(out, b, p, filter);
  }

  /** The last loop, over the map in any order, and the sort. */
  method Total(lines: map<string, Line>) returns (out: seq<Line>)
    requires forall a :: a in lines ==> lines[a].asset == a
    ensures Sorted(out)
    ensures forall x :: x in out <==> x.asset in lines && x == lines[x.asset].(net := Net(lines[x.asset]))
  {
    out := [];
    var keys := lines.Keys;
    while keys != {}
      invariant keys <= lines.Keys
      invariant forall x :: x in out <==> x.asset in lines.Keys - keys && x == lines[x.asset].(net := Net(lines[x.asset]))
      invariant forall i, j :: 0 <= i < j < |out| ==> out[i].asset != out[j].asset
      decreases keys
    {
      var a :| a in keys;
      keys := keys - {a};
      assert forall i :: 0 <= i < |out| ==> out[i] in out;
      out := out + [lines[a].(net := Net(lines[a]))];
    }
    out := SortByAsset(out);
  }

  lemma {:induction false} SortedUnique(x: seq<Line>, y: seq<Line>)
    requires Sorted(x) && Sorted(y) && forall l :: l in x <==> l in y
    ensures x == y
    decreases |x|
  {
    if x == [] {
      assert forall i :: 0 <= i < |y| ==> y[i] in y;
    } else {
      assert x[0] in y && y != [] && y[0] in x;
      BeforeTotal(x[0].asset, y[0].asset);
      assert x[0] == y[0];
      forall l ensures l in x[1..] <==> l in y[1..] {
        assert l in x[1..] ==> l in x && Before(x[0].asset, l.asset);
        assert l in y[1..] ==> l in y && Before(y[0].asset, l.asset);
        BeforeTotal(x[0].asset, x[0].asset);
      }
      SortedUnique(x[1..], y[1..]);
    }
  }

  /** There is one report for a period, whatever order the map was walked in. */
  lemma ReportUnique(x: seq<Line>, y: seq<Line>, b: Books, p: Period, filter: string)
    requires Report(x, b, p, filter) && Report(y, b, p, filter)
    ensures x == y
  {
    forall l ensures l in x <==> l in y {
      if l in x { assert l == LineAt(b, p, l.asset); }
      if l in y { assert l == LineAt(b, p, l.asset); }
    }
    SortedUnique(x, y);
  }
}
