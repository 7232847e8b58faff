/**
 The engine's registry consumer (internal/app/reload_consumer.go) behind the
 registry's outbox.

 Registry writes commit at any moment, also while a reload reads; events arrive
 in any order and any number of times; a reload reads assets and markets in two
 statements and may fail at each. `last` is the start of the latest successful
 reload; an event that occurred more than RELOAD_SKEW before it is acknowledged
 without a reload. Times are microseconds on the consumer's clock, except
 `occurredAt`, which is the producer's claim.
 */
module ReloadConsumer {
  import opened Options
  import R = Registry

  const RELOAD_SKEW: nat := 1_000_000

  // ---------------------------------------------------------------- the cache

  datatype CachedMarket = CachedMarket(row: R.Row, fee: R.Row)
  type AssetCache = map<R.Key, R.Row>
  type MarketCache = map<R.Key, CachedMarket>
  datatype Cache = Cache(assets: AssetCache, markets: MarketCache)

  /** ListAssets. */
  function ReadAssets(rows: map<R.Key, R.Row>): AssetCache {
    map k | k in rows && k.AssetKey? :: rows[k]
  }

  predicate Joined(rows: map<R.Key, R.Row>, k: R.Key) {
    k in rows && k.MarketKey? && rows[k].body.Market? && R.References(rows, k, rows[k].body)
  }

  /** ListMarkets: each market joined with its assets and its fee schedule. */
  function ReadMarkets(rows: map<R.Key, R.Row>): MarketCache {
    map k | k in rows && Joined(rows, k) :: CachedMarket(rows[k], rows[R.FeeKey(rows[k].body.feeSchedule)])
  }

  ghost predicate AssetsCover(assets: AssetCache, e: R.Event) {
    e.target.OneRow? && e.target.key.AssetKey? ==>
      e.target.key in assets && assets[e.target.key].version >= e.version
  }

  ghost predicate MarketsCover(markets: MarketCache, e: R.Event) {
    && (e.target.OneRow? && e.target.key.MarketKey? ==>
        e.target.key in markets && markets[e.target.key].row.version >= e.version)
    && (e.target.OneRow? && e.target.key.FeeKey? ==>
        forall m :: m in markets && markets[m].row.body.Market? && markets[m].row.body.feeSchedule == e.target.key.name ==>
          markets[m].fee.version >= e.version)
  }

  /** The engine sees the change the event announces, or a later one to the same row. */
  ghost predicate Covers(c: Cache, e: R.Event) {
    AssetsCover(c.assets, e) && MarketsCover(c.markets, e)
  }

  // ---------------------------------------------------------------- the world

  datatype Work =
    | Idle
    | Reloading(event: nat, started: int, assets: Option<AssetCache>, markets: Option<MarketCache>, floor: nat)
    | Swapped(event: nat, started: int)

  datatype World = World(
    now: int,
    registry: R.World,
    committed: seq<int>,      // history: when each event of the outbox committed
    cache: Cache,
    last: Option<int>,
    work: Work,               // the mutex admits one handler at a time
    seen: nat,                // history: events committed before the cached reload started
    acked: set<nat>)          // history: acknowledged events

  datatype Step =
    | Tick(elapsed: nat)
    | Registry(step: R.Step)
    | Deliver(event: nat)
    | LoadAssets | LoadMarkets | Swap
    | Finish(runnersStarted: bool)
    | FailToLoad

  function Rows(w: World): map<R.Key, R.Row> { w.registry.tables.rows }

  function Outbox(w: World): seq<R.Event> { w.registry.tables.outbox }

  /** The check handle makes under its mutex. */
  predicate Covered(last: Option<int>, occurredAt: int) {
    last.Some? && last.value > occurredAt + RELOAD_SKEW
  }

  function Apply(w: World, step: Step): World {
    match step
    case Tick(d) => w.(now := w.now + d)
    case Registry(r) =>
      var reg := R.Apply(w.registry, r);
      w.(registry := reg, committed := if |reg.tables.outbox| > |Outbox(w)| then w.committed + [w.now] else w.committed)
    case Deliver(i) =>
      if !w.work.Idle? || i >= |Outbox(w)| then w
      else if Covered(w.last, Outbox(w)[i].occurredAt) then w.(acked := w.acked + {i})
      else w.(work := Reloading(i, w.now, None, None, |Outbox(w)|))
    case LoadAssets =>
      if w.work.Reloading? && w.work.assets.None?
      then w.(work := w.work.(assets := Some(ReadAssets(Rows(w))))) else w
    case LoadMarkets =>
      if w.work.Reloading? && w.work.assets.Some? && w.work.markets.None?
      then w.(work := w.work.(markets := Some(ReadMarkets(Rows(w))))) else w
    case Swap =>
      if w.work.Reloading? && w.work.assets.Some? && w.work.markets.Some?
      then w.(cache := Cache(w.work.assets.value, w.work.markets.value), seen := w.work.floor,
              work := Swapped(w.work.event, w.work.started)) else w
    case Finish(ok) =>
      if !w.work.Swapped? then w
      else if ok then w.(last := Some(w.work.started), acked := w.acked + {w.work.event}, work := Idle)
      else w.(work := Idle)
    case FailToLoad => if w.work.Reloading? then w.(work := Idle) else w
  }

  function Run(w: World, steps: seq<Step>): World
    decreases |steps|
  {
    if steps == [] then w else Run(Apply(w, steps[0]), steps[1..])
  }

  /** Producers commit within `delay` of the time they put into the event. */
  ghost predicate Timely(w: World, step: Step, delay: nat) {
    match step
    case Registry(r) => r.Commit? && |R.Apply(w.registry, r).tables.outbox| > |Outbox(w)| ==> w.now <= r.at + delay
    case _ => true
  }

  ghost predicate TimelyRun(w: World, steps: seq<Step>, delay: nat)
    decreases |steps|
  {
    steps != [] ==> Timely(w, steps[0], delay) && TimelyRun(Apply(w, steps[0]), steps[1..], delay)
  }

  /** A consumer starts over any registry, with any backlog of events committed in time, and any cache. */
  ghost predicate Init(w: World, delay: nat) {
    && HistorySound(w, delay) && w.last == None && w.work == Idle && w.seen == 0 && w.acked == {}
  }

  // ---------------------------------------------------------------- invariant

  ghost predicate HistorySound(w: World, delay: nat) {
    && R.Inv(w.registry)
    && |w.committed| == |Outbox(w)|
    && forall i :: 0 <= i < |w.committed| ==>
        w.committed[i] <= w.now && w.committed[i] <= Outbox(w)[i].occurredAt + delay
  }

  /** Whatever the cached reload can have missed committed at or after time t. */
  ghost predicate MissedAfter(w: World, from: nat, t: int) {
    forall i :: from <= i < |w.committed| ==> w.committed[i] >= t
  }

  ghost predicate CacheSound(w: World) {
    && w.seen <= |Outbox(w)|
    && (forall i :: 0 <= i < w.seen ==> Covers(w.cache, Outbox(w)[i]))
    && (w.last.Some? ==> w.last.value <= w.now && MissedAfter(w, w.seen, w.last.value))
    && (forall i :: i in w.acked ==> i < w.seen)
  }

  ghost predicate WorkSound(w: World) {
    match w.work
    case Idle => true
    case Reloading(i, started, assets, markets, floor) =>
      && i < floor <= |Outbox(w)| && w.seen <= floor
      && started <= w.now && (w.last.Some? ==> w.last.value <= started)
      && MissedAfter(w, floor, started)
      && (assets.Some? ==> forall j :: 0 <= j < floor ==> AssetsCover(assets.value, Outbox(w)[j]))
      && (markets.Some? ==> forall j :: 0 <= j < floor ==> MarketsCover(markets.value, Outbox(w)[j]))
    case Swapped(i, started) =>
      && i < w.seen && started <= w.now && (w.last.Some? ==> w.last.value <= started)
      && MissedAfter(w, w.seen, started)
  }

  ghost predicate Inv(w: World, delay: nat) {
    HistorySound(w, delay) && CacheSound(w) && WorkSound(w)
  }

  /** What is read now covers everything committed before. */
  lemma ReadCovers(w: R.World, j: nat)
    requires R.Inv(w) && j < |w.tables.outbox|
    ensures AssetsCover(ReadAssets(w.tables.rows), w.tables.outbox[j])
    ensures MarketsCover(ReadMarkets(w.tables.rows), w.tables.outbox[j])
  {
    if w.tables.outbox[j].target.OneRow? {
      R.EventIsInTable(w, j);
      var k := w.tables.outbox[j].target.key;
      assert R.Fits(k, w.tables.rows[k].body) && R.References(w.tables.rows, k, w.tables.rows[k].body);
    }
  }

  /** What is read now is a copy: every asset, and every market with its schedule, as they stand, and nothing else. */
  lemma ReadIsCopy(w: R.World)
    requires R.Inv(w)
    ensures forall k :: k in ReadAssets(w.tables.rows) <==> k in w.tables.rows && k.AssetKey?
    ensures forall k :: k in w.tables.rows && k.AssetKey? ==> ReadAssets(w.tables.rows)[k] == w.tables.rows[k]
    ensures forall k :: k in ReadMarkets(w.tables.rows) <==> k in w.tables.rows && k.MarketKey?
    ensures forall k :: k in w.tables.rows && k.MarketKey? ==>
      && w.tables.rows[k].body.Market? && R.FeeKey(w.tables.rows[k].body.feeSchedule) in w.tables.rows
      && ReadMarkets(w.tables.rows)[k] == CachedMarket(w.tables.rows[k], w.tables.rows[R.FeeKey(w.tables.rows[k].body.feeSchedule)])
  {
    forall k | k in w.tables.rows ensures R.Fits(k, w.tables.rows[k].body) && R.References(w.tables.rows, k, w.tables.rows[k].body) {
    }
  }

  /** At most one more event, committed now. */
  lemma RegistryGrows(w: World, reg: R.World, w': World, delay: nat)
    requires Inv(w, delay) && R.Inv(reg)
    requires Outbox(w) <= reg.tables.outbox && |reg.tables.outbox| <= |Outbox(w)| + 1
    requires |reg.tables.outbox| > |Outbox(w)| ==> w.now <= reg.tables.outbox[|Outbox(w)|].occurredAt + delay
    requires w' == w.(registry := reg, committed := if |reg.tables.outbox| > |Outbox(w)| then w.committed + [w.now] else w.committed)
    ensures Inv(w', delay)
  {
    assert forall i :: 0 <= i < |Outbox(w)| ==> Outbox(w')[i] == Outbox(w)[i];
    assert forall i :: 0 <= i < |w.committed| ==> w'.committed[i] == w.committed[i];
    assert HistorySound(w', delay);
    assert CacheSound(w');
    assert WorkSound(w');
  }

  lemma RegistryKeepsInv(w: World, r: R.Step, delay: nat)
    requires Inv(w, delay) && Timely(w, Registry(r), delay)
    ensures Inv(Apply(w, Registry(r)), delay)
  {
    R.StepKeepsInv(w.registry, r);
    R.OutboxGrows(w.registry, r);
    RegistryGrows(w, R.Apply(w.registry, r), Apply(w, Registry(r)), delay);
  }

  lemma LoadKeepsInv(w: World, step: Step, delay: nat)
    requires Inv(w, delay) && (step.LoadAssets? || step.LoadMarkets?)
    ensures Inv(Apply(w, step), delay)
  {
    forall j | 0 <= j < |Outbox(w)|
      ensures AssetsCover(ReadAssets(Rows(w)), Outbox(w)[j])
      ensures MarketsCover(ReadMarkets(Rows(w)), Outbox(w)[j])
    {
      ReadCovers(w.registry, j);
    }
  }

  lemma DeliverKeepsInv(w: World, i: nat, delay: nat)
    requires Inv(w, delay) && delay <= RELOAD_SKEW
    ensures Inv(Apply(w, Deliver(i)), delay)
  {
  }

  lemma StepKeepsInv(w: World, step: Step, delay: nat)
    requires Inv(w, delay) && Timely(w, step, delay) && delay <= RELOAD_SKEW
    ensures Inv(Apply(w, step), delay)
  {
    match step
    case Registry(r) => RegistryKeepsInv(w, r, delay);
    case Deliver(i) => DeliverKeepsInv(w, i, delay);
    case LoadAssets => LoadKeepsInv(w, step, delay);
    case LoadMarkets => LoadKeepsInv(w, step, delay);
    case _ =>
  }

  lemma {:induction false} RunKeepsInv(w: World, steps: seq<Step>, delay: nat)
    requires Inv(w, delay) && TimelyRun(w, steps, delay) && delay <= RELOAD_SKEW
    ensures Inv(Run(w, steps), delay)
    decreases |steps|
  {
    if steps != [] {
      StepKeepsInv(w, steps[0], delay);
      RunKeepsInv(Apply(w, steps[0]), steps[1..], delay);
    }
  }

  // ---------------------------------------------------------------- the coalescing theorem

  /** Every acknowledged event is in the cache, now and ever after, and the cache was read after it committed. */
  ghost predicate NothingLost(w: World) {
    forall i :: i in w.acked ==> i < w.seen <= |Outbox(w)| && Covers(w.cache, Outbox(w)[i])
  }

  ghost predicate SafeDelay(delay: nat) {
    forall w: World, steps: seq<Step> :: Init(w, delay) && TimelyRun(w, steps, delay) ==> NothingLost(Run(w, steps))
  }

  /** An empty registry in which someone has asked for a reload. */
  function Asked(): R.World {
    R.Run(R.Starting(map[]), [R.Begin(0, R.RequestReload, false), R.Commit(0, 0, None)])
  }

  lemma AskedSound()
    ensures R.Inv(Asked())
  {
    R.StartingSound(map[]);
    R.RunKeepsInv(R.Starting(map[]), [R.Begin(0, R.RequestReload, false), R.Commit(0, 0, None)]);
  }

  lemma AskedIsEmpty()
    ensures Asked().tables.rows == map[] && Asked().calls == map[]
    ensures Asked().tables.outbox == [R.Event(R.WholeRegistry, [], 0, 0)]
  {
    R.RunTwo(R.Starting(map[]), R.Begin(0, R.RequestReload, false), R.Commit(0, 0, None));
  }

  const ETHER := R.Asset("Ether", 1, None, true, 18, 6, 12, 0, 0, 0, 0, 0, 0, true, true, "active")

  const LIST_ETHER := R.Upsert(R.AssetKey("ETH"), ETHER, true, true)

  lemma ListEtherWrites(reg: R.World)
    requires reg.tables.rows == map[] && reg.calls == map[]
    ensures var reg1 := R.Apply(reg, R.Begin(0, LIST_ETHER, false));
      && reg1.tables == reg.tables
      && R.Apply(reg1, R.Commit(0, 0, None)).tables.outbox ==
          reg.tables.outbox + [R.Event(R.OneRow(R.AssetKey("ETH")), [R.Created], 1, 0)]
  {
  }

  /** A delivery that nothing overlaps. */
  function Handling(i: nat, runnersStarted: bool): seq<Step> {
    [Deliver(i), LoadAssets, LoadMarkets, Swap, Finish(runnersStarted)]
  }

  function Loaded(w: World, i: nat): World {
    Apply(Apply(Apply(w, Deliver(i)), LoadAssets), LoadMarkets)
  }

  lemma HandlingRun(w: World, i: nat, runnersStarted: bool, delay: nat)
    ensures Run(w, Handling(i, runnersStarted)) == Apply(Apply(Loaded(w, i), Swap), Finish(runnersStarted))
    ensures TimelyRun(w, Handling(i, runnersStarted), delay)
  {
    var steps := Handling(i, runnersStarted);
    Unroll(w, steps, 0, delay);
    Unroll(Apply(w, Deliver(i)), steps, 1, delay);
    Unroll(Apply(Apply(w, Deliver(i)), LoadAssets), steps, 2, delay);
    Unroll(Loaded(w, i), steps, 3, delay);
    Unroll(Apply(Loaded(w, i), Swap), steps, 4, delay);
    assert steps[5..] == [] && steps[0..] == steps;
  }

  /** One reload that read the empty tables, after an event that asked for it. */
  lemma ReloadEmpty(reg: R.World, delay: nat) returns (w: World, w5: World, steps: seq<Step>)
    requires delay > RELOAD_SKEW && R.Inv(reg)
    requires reg.tables.rows == map[] && reg.tables.outbox == [R.Event(R.WholeRegistry, [], 0, 0)]
    ensures Init(w, delay) && Run(w, steps) == w5 && TimelyRun(w, steps, delay)
    ensures w5.now == RELOAD_SKEW + 1 && w5.last == Some(RELOAD_SKEW + 1) && w5.work == Idle
    ensures w5.registry == reg && w5.cache.assets == map[]
  {
    w := World(RELOAD_SKEW + 1, reg, [0], Cache(map[], map[]), None, Idle, 0, {});
    steps := Handling(0, true);
    HandlingRun(w, 0, true, delay);
    w5 := Run(w, steps);
  }

  /** A listing that commits now, with an event time before the last reload, is acknowledged unread. */
  lemma AcknowledgedUnread(w5: World, delay: nat) returns (steps: seq<Step>)
    requires delay > RELOAD_SKEW && w5.now == RELOAD_SKEW + 1 && w5.last == Some(RELOAD_SKEW + 1) && w5.work == Idle
    requires w5.registry.tables.rows == map[] && w5.registry.calls == map[] && w5.cache.assets == map[]
    requires Outbox(w5) == [R.Event(R.WholeRegistry, [], 0, 0)]
    ensures TimelyRun(w5, steps, delay) && !NothingLost(Run(w5, steps))
  {
    ListEtherWrites(w5.registry);
    var w6 := Apply(w5, Registry(R.Begin(0, LIST_ETHER, false)));
    var w7 := Apply(w6, Registry(R.Commit(0, 0, None)));
    var w8 := Apply(w7, Deliver(1));
    assert 1 in w8.acked && !AssetsCover(w8.cache.assets, Outbox(w8)[1]);
    steps := [Registry(R.Begin(0, LIST_ETHER, false)), Registry(R.Commit(0, 0, None)), Deliver(1)];
    RunThree(w5, steps, delay);
  }

  /** A write that commits too late is acknowledged by a reload that had already read the table. */
  lemma LateCommitIsLost(delay: nat) returns (w: World, steps: seq<Step>)
    requires delay > RELOAD_SKEW
    ensures Init(w, delay) && TimelyRun(w, steps, delay) && !NothingLost(Run(w, steps))
  {
    var w5, first;
    AskedSound();
    AskedIsEmpty();
    w, w5, first := ReloadEmpty(Asked(), delay);
    var last := AcknowledgedUnread(w5, delay);
    steps := first + last;
    Concat(w, first, last, delay);
  }

  lemma RunThree(w: World, steps: seq<Step>, delay: nat)
    requires |steps| == 3
    ensures var w1 := Apply(w, steps[0]); var w2 := Apply(w1, steps[1]);
      && Run(w, steps) == Apply(w2, steps[2])
      && (TimelyRun(w, steps, delay) <==> Timely(w, steps[0], delay) && Timely(w1, steps[1], delay) && Timely(w2, steps[2], delay))
  {
    var w1 := Apply(w, steps[0]);
    Unroll(w, steps, 0, delay);
    Unroll(w1, steps, 1, delay);
    Unroll(Apply(w1, steps[1]), steps, 2, delay);
    assert steps[3..] == [] && steps[0..] == steps;
  }

  lemma {:induction false} Concat(w: World, a: seq<Step>, b: seq<Step>, delay: nat)
    ensures Run(w, a + b) == Run(Run(w, a), b)
    ensures TimelyRun(w, a + b, delay) <==> TimelyRun(w, a, delay) && TimelyRun(Run(w, a), b, delay)
    decreases |a|
  {
    if a == [] {
      assert a + b == b;
    } else {
      assert (a + b)[1..] == a[1..] + b;
      Concat(Apply(w, a[0]), a[1..], b, delay);
    }
  }

  lemma Unroll(w: World, steps: seq<Step>, n: nat, delay: nat)
    requires n < |steps|
    ensures Run(w, steps[n..]) == Run(Apply(w, steps[n]), steps[n + 1..])
    ensures TimelyRun(w, steps[n..], delay) <==> Timely(w, steps[n], delay) && TimelyRun(Apply(w, steps[n]), steps[n + 1..], delay)
  {
    assert steps[n..][1..] == steps[n + 1..];
  }

  /**
   The coalescing theorem: under any order, redelivery, interleaving and reload
   failure, skipping reloads loses nothing exactly when writes commit within
   RELOAD_SKEW of the time in their event.
   */
  lemma DelayIsSafeIff(delay: nat)
    ensures SafeDelay(delay) <==> delay <= RELOAD_SKEW
  {
    if delay <= RELOAD_SKEW {
      forall w: World, steps: seq<Step> | Init(w, delay) && TimelyRun(w, steps, delay) ensures NothingLost(Run(w, steps)) {
        assert Inv(w, delay);
        RunKeepsInv(w, steps, delay);
      }
    } else {
      var w, steps := LateCommitIsLost(delay);
    }
  }

  // ---------------------------------------------------------------- bursts

  ghost predicate ClockSound(w: World) {
    && (w.last.Some? ==> w.last.value <= w.now)
    && (!w.work.Idle? ==> w.work.started <= w.now && (w.last.Some? ==> w.last.value <= w.work.started))
  }

  lemma {:induction false} LastOnlyGrows(w: World, steps: seq<Step>)
    requires ClockSound(w)
    ensures var w' := Run(w, steps);
      && ClockSound(w') && Outbox(w) <= Outbox(w')
      && (w.last.Some? ==> w'.last.Some? && w'.last.value >= w.last.value)
    decreases |steps|
  {
    if steps != [] {
      if steps[0].Registry? { R.OutboxGrows(w.registry, steps[0].step); }
      LastOnlyGrows(Apply(w, steps[0]), steps[1..]);
    }
  }

  /** After one successful reload that started late enough, no event of the burst ever starts another. */
  lemma BurstNeedsNoReload(w: World, steps: seq<Step>, i: nat)
    requires ClockSound(w) && i < |Outbox(w)| && Covered(w.last, Outbox(w)[i].occurredAt)
    ensures var w' := Run(w, steps);
      Apply(w', Deliver(i)) == if w'.work.Idle? then w'.(acked := w'.acked + {i}) else w'
  {
    LastOnlyGrows(w, steps);
  }

  // ---------------------------------------------------------------- the handler

  /** reloader together with the engine's cache. */
  class Reloader {
    var last: Option<int>
    var cache: Cache

    constructor ()
      ensures last == None && cache == Cache(map[], map[])
    {
      last, cache := None, Cache(map[], map[]);
    }

    /** handle: true acknowledges the event, false asks for redelivery. The reads are what the database answers. */
    method Handle(occurredAt: int, now: int, assets: Option<AssetCache>, markets: Option<MarketCache>, runnersStarted: bool)
      returns (ack: bool)
      modifies this
      ensures Covered(old(last), occurredAt) ==> ack && last == old(last) && cache == old(cache)
      ensures !Covered(old(last), occurredAt) ==>
        && ack == (assets.Some? && markets.Some? && runnersStarted)
        && last == (if ack then Some(now) else old(last))
        && cache == (if assets.Some? && markets.Some? then Cache(assets.value, markets.value) else old(cache))
    {
      if last.Some? && last.value > occurredAt + RELOAD_SKEW {
        return true;
      }
      var started := now;
      var ok := Reload(assets, markets, runnersStarted);
      if !ok {
        return false;
      }
      last := Some(started);
      return true;
    }

    /** Engine.Reload: a read that fails leaves the cache alone, a runner that does not start leaves it replaced. */
    method Reload(assets: Option<AssetCache>, markets: Option<MarketCache>, runnersStarted: bool) returns (ok: bool)
      modifies this`cache
      ensures ok == (assets.Some? && markets.Some? && runnersStarted)
      ensures cache == if assets.Some? && markets.Some? then Cache(assets.value, markets.value) else old(cache)
    {
      if assets.None? {
        return false;
      }
      if markets.None? {
        return false;
      }
      cache := Cache(assets.value, markets.value);
      ok := runnersStarted;
    }
  }

  /** One delivery with nothing else going on is one call of Handle. */
  lemma HandleIsARun(w: World, i: nat, runnersStarted: bool)
    requires w.work.Idle? && i < |Outbox(w)| && !Covered(w.last, Outbox(w)[i].occurredAt)
    ensures var w' := Run(w, Handling(i, runnersStarted));
      && w'.work == Idle
      && w'.cache == Cache(ReadAssets(Rows(w)), ReadMarkets(Rows(w)))
      && w'.last == (if runnersStarted then Some(w.now) else w.last)
      && w'.acked == (if runnersStarted then w.acked + {i} else w.acked)
  {
    HandlingRun(w, i, runnersStarted, 0);
  }
}
