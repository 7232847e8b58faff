/**
 Registry writes of the admin role (internal/admin/writes.go) over the registry
 tables (internal/registry): row, audit record and outbox event in one
 transaction.

 A call reads the row it will write through the pool, outside its transaction, and
 judges what its upsert did against that earlier row (writes.go:364-400). So a call
 is two steps here, Begin and Commit, and any number of calls may be between them.

 Amounts are integers in the smallest unit. Checks that look only at the input
 (the Validate methods) arrive as `admissible`; the ones that look at other rows
 are modelled. A database error at any statement is `fault`.
 */
module Registry {
  import opened Options

  // ---------------------------------------------------------------- rows

  datatype Key =
    | AssetKey(symbol: string)
    | MarketKey(symbol: string)
    | FeeKey(name: string)
    | LimitKey(asset: string, level: int)

  /** The writable columns of each table. */
  datatype Body =
    | Asset(name: string, chainId: int, contract: Option<string>, isNative: bool, scale: int, displayScale: int,
            confirmations: int, minDeposit: int, minWithdrawal: int, withdrawalFee: int, withdrawalFeeBps: int,
            depositFeeBps: int, sweepThreshold: int, depositEnabled: bool, withdrawEnabled: bool, assetStatus: string)
    | Market(base: string, quote: string, priceTick: int, qtyStep: int, minNotional: int, maxQty: Option<int>,
             maxSlippageBps: Option<int>, feeSchedule: string, selfTradePolicy: string, status: string)
    | Fee(makerBps: int, takerBps: int)
    | Limit(autoApproveLimit: int, dailyLimit: int, manualReview: bool)

  datatype Row = Row(body: Body, version: nat)

  predicate Fits(k: Key, b: Body) {
    match k
    case AssetKey(_) => b.Asset?
    case MarketKey(_) => b.Market?
    case FeeKey(_) => b.Fee?
    case LimitKey(_, _) => b.Limit?
  }

  // ---------------------------------------------------------------- column images

  datatype Column =
    | Name | ChainId | ContractAddress | IsNative | Scale | DisplayScale | RequiredConfirmations | MinDeposit
    | MinWithdrawal | WithdrawalFee | WithdrawalFeeBps | DepositFeeBps | SweepThreshold | DepositEnabled
    | WithdrawEnabled | Status
    | BaseAsset | QuoteAsset | PriceTick | QtyStep | MinNotional | MaxQty | MaxSlippageBps | FeeSchedule | SelfTradePolicy
    | MakerBps | TakerBps
    | AutoApproveLimit | DailyLimit | RequireManualReview
    | Version | Created

  datatype Value = Str(s: string) | Int(n: int) | Bool(b: bool) | OptStr(os: Option<string>) | OptInt(oi: Option<int>) | Absent

  /** The value of a column; Absent for a column the table does not have. */
  function ColumnOf(b: Body, c: Column): Value {
    match b
    case Asset(_, _, _, _, _, _, _, _, _, _, _, _, _, _, _, _) => AssetColumn(b, c)
    case Market(_, _, _, _, _, _, _, _, _, _) => MarketColumn(b, c)
    case Fee(maker, taker) => (match c case MakerBps => Int(maker) case TakerBps => Int(taker) case _ => Absent)
    case Limit(auto, daily, review) =>
      (match c case AutoApproveLimit => Int(auto) case DailyLimit => Int(daily) case RequireManualReview => Bool(review) case _ => Absent)
  }

  function AssetColumn(b: Body, c: Column): Value
    requires b.Asset?
  {
    match c
    case Name => Str(b.name)
    case ChainId => Int(b.chainId)
    case ContractAddress => OptStr(b.contract)
    case IsNative => Bool(b.isNative)
    case Scale => Int(b.scale)
    case DisplayScale => Int(b.displayScale)
    case RequiredConfirmations => Int(b.confirmations)
    case MinDeposit => Int(b.minDeposit)
    case MinWithdrawal => Int(b.minWithdrawal)
    case WithdrawalFee => Int(b.withdrawalFee)
    case WithdrawalFeeBps => Int(b.withdrawalFeeBps)
    case DepositFeeBps => Int(b.depositFeeBps)
    case SweepThreshold => Int(b.sweepThreshold)
    case DepositEnabled => Bool(b.depositEnabled)
    case WithdrawEnabled => Bool(b.withdrawEnabled)
    case Status => Str(b.assetStatus)
    case _ => Absent
  }

  function MarketColumn(b: Body, c: Column): Value
    requires b.Market?
  {
    match c
    case BaseAsset => Str(b.base)
    case QuoteAsset => Str(b.quote)
    case PriceTick => Int(b.priceTick)
    case QtyStep => Int(b.qtyStep)
    case MinNotional => Int(b.minNotional)
    case MaxQty => OptInt(b.maxQty)
    case MaxSlippageBps => OptInt(b.maxSlippageBps)
    case FeeSchedule => Str(b.feeSchedule)
    case SelfTradePolicy => Str(b.selfTradePolicy)
    case Status => Str(b.status)
    case _ => Absent
  }

  /** assetFields, marketFields and the literals for fees and limits: every writable column and the version. */
  function Image(r: Row): map<Column, Value> {
    (map c: Column | ColumnOf(r.body, c) != Absent :: ColumnOf(r.body, c))[Version := Int(r.version)]
  }

  function At(m: map<Column, Value>, c: Column): Value { if c in m then m[c] else Absent }

  function AsStr(v: Value): string { if v.Str? then v.s else "" }
  function AsInt(v: Value): int { if v.Int? then v.n else 0 }
  function AsBool(v: Value): bool { v.Bool? && v.b }
  function AsOptStr(v: Value): Option<string> { if v.OptStr? then v.os else None }
  function AsOptInt(v: Value): Option<int> { if v.OptInt? then v.oi else None }

  function ReadAsset(m: map<Column, Value>): Body {
    Asset(AsStr(At(m, Name)), AsInt(At(m, ChainId)), AsOptStr(At(m, ContractAddress)), AsBool(At(m, IsNative)),
          AsInt(At(m, Scale)), AsInt(At(m, DisplayScale)), AsInt(At(m, RequiredConfirmations)), AsInt(At(m, MinDeposit)),
          AsInt(At(m, MinWithdrawal)), AsInt(At(m, WithdrawalFee)), AsInt(At(m, WithdrawalFeeBps)),
          AsInt(At(m, DepositFeeBps)), AsInt(At(m, SweepThreshold)), AsBool(At(m, DepositEnabled)),
          AsBool(At(m, WithdrawEnabled)), AsStr(At(m, Status)))
  }

  function ReadMarket(m: map<Column, Value>): Body {
    Market(AsStr(At(m, BaseAsset)), AsStr(At(m, QuoteAsset)), AsInt(At(m, PriceTick)), AsInt(At(m, QtyStep)),
           AsInt(At(m, MinNotional)), AsOptInt(At(m, MaxQty)), AsOptInt(At(m, MaxSlippageBps)),
           AsStr(At(m, FeeSchedule)), AsStr(At(m, SelfTradePolicy)), AsStr(At(m, Status)))
  }

  /** Reading a row's writable columns back from an image. */
  function ReadBody(k: Key, m: map<Column, Value>): Body {
    match k
    case AssetKey(_) => ReadAsset(m)
    case MarketKey(_) => ReadMarket(m)
    case FeeKey(_) => Fee(AsInt(At(m, MakerBps)), AsInt(At(m, TakerBps)))
    case LimitKey(_, _) => Limit(AsInt(At(m, AutoApproveLimit)), AsInt(At(m, DailyLimit)), AsBool(At(m, RequireManualReview)))
  }

  ghost predicate Shows(m: map<Column, Value>, b: Body) {
    forall c :: c != Version ==> At(m, c) == ColumnOf(b, c)
  }

  lemma ImageShows(r: Row)
    ensures Shows(Image(r), r.body) && At(Image(r), Version) == Int(r.version)
  {
  }

  lemma AssetIdentityBack(m: map<Column, Value>, b: Body)
    requires b.Asset? && Shows(m, b)
    ensures At(m, Name) == Str(b.name) && At(m, ChainId) == Int(b.chainId) && At(m, ContractAddress) == OptStr(b.contract)
    ensures At(m, IsNative) == Bool(b.isNative) && At(m, Scale) == Int(b.scale) && At(m, DisplayScale) == Int(b.displayScale)
    ensures At(m, RequiredConfirmations) == Int(b.confirmations) && At(m, Status) == Str(b.assetStatus)
  {
  }

  lemma AssetAmountsBack(m: map<Column, Value>, b: Body)
    requires b.Asset? && Shows(m, b)
    ensures At(m, MinDeposit) == Int(b.minDeposit) && At(m, MinWithdrawal) == Int(b.minWithdrawal)
    ensures At(m, WithdrawalFee) == Int(b.withdrawalFee) && At(m, SweepThreshold) == Int(b.sweepThreshold)
  {
  }

  lemma AssetRatesBack(m: map<Column, Value>, b: Body)
    requires b.Asset? && Shows(m, b)
    ensures At(m, WithdrawalFeeBps) == Int(b.withdrawalFeeBps) && At(m, DepositFeeBps) == Int(b.depositFeeBps)
    ensures At(m, DepositEnabled) == Bool(b.depositEnabled) && At(m, WithdrawEnabled) == Bool(b.withdrawEnabled)
  {
  }

  lemma ReadAssetBack(m: map<Column, Value>, b: Body)
    requires b.Asset? && Shows(m, b)
    ensures ReadAsset(m) == b
  {
    AssetIdentityBack(m, b);
    AssetAmountsBack(m, b);
    AssetRatesBack(m, b);
  }

  lemma ReadMarketBack(m: map<Column, Value>, b: Body)
    requires b.Market? && Shows(m, b)
    ensures ReadMarket(m) == b
  {
  }

  lemma ReadBack(k: Key, m: map<Column, Value>, b: Body)
    requires Fits(k, b) && Shows(m, b)
    ensures ReadBody(k, m) == b
  {
    match k
    case AssetKey(_) => ReadAssetBack(m, b);
    case MarketKey(_) => ReadMarketBack(m, b);
    case FeeKey(_) =>
      assert ColumnOf(b, MakerBps) == Int(b.makerBps) && ColumnOf(b, TakerBps) == Int(b.takerBps);
    case LimitKey(_, _) =>
      assert ColumnOf(b, AutoApproveLimit) == Int(b.autoApproveLimit) && ColumnOf(b, DailyLimit) == Int(b.dailyLimit);
  }

  /** Each writable column of a market, a schedule and a limit stands under its own name. */
  lemma MarketTermsNamed(b: Body)
    requires b.Market?
    ensures ColumnOf(b, PriceTick) == Int(b.priceTick) && ColumnOf(b, QtyStep) == Int(b.qtyStep)
    ensures ColumnOf(b, MinNotional) == Int(b.minNotional) && ColumnOf(b, MaxQty) == OptInt(b.maxQty)
    ensures ColumnOf(b, MaxSlippageBps) == OptInt(b.maxSlippageBps)
  {
  }

  lemma MarketNamesNamed(b: Body)
    requires b.Market?
    ensures ColumnOf(b, BaseAsset) == Str(b.base) && ColumnOf(b, QuoteAsset) == Str(b.quote)
    ensures ColumnOf(b, FeeSchedule) == Str(b.feeSchedule) && ColumnOf(b, SelfTradePolicy) == Str(b.selfTradePolicy)
    ensures ColumnOf(b, Status) == Str(b.status)
  {
  }

  lemma SmallTablesNamed(b: Body)
    ensures b.Fee? ==> ColumnOf(b, MakerBps) == Int(b.makerBps) && ColumnOf(b, TakerBps) == Int(b.takerBps)
    ensures b.Limit? ==>
      && ColumnOf(b, AutoApproveLimit) == Int(b.autoApproveLimit) && ColumnOf(b, DailyLimit) == Int(b.dailyLimit)
      && ColumnOf(b, RequireManualReview) == Bool(b.manualReview)
  {
  }

  /** An audit image loses nothing of the row. */
  lemma ImageRoundTrip(k: Key, r: Row)
    requires Fits(k, r.body)
    ensures ReadBody(k, Image(r)) == r.body && At(Image(r), Version) == Int(r.version)
  {
    ImageShows(r);
    ReadBack(k, Image(r), r.body);
  }

  // ---------------------------------------------------------------- changed fields

  /** The columns assetChanges, marketChanges and feeChanges go through, in that order. */
  function Columns(k: Key): seq<Column> {
    match k
    case AssetKey(_) =>
      [Name, ChainId, ContractAddress, IsNative, Scale, DisplayScale, RequiredConfirmations, MinDeposit,
     MinWithdrawal, WithdrawalFee, WithdrawalFeeBps, DepositFeeBps, SweepThreshold, DepositEnabled,
     WithdrawEnabled, Status]
    case MarketKey(_) =>
      [BaseAsset, QuoteAsset, PriceTick, QtyStep, MinNotional, MaxQty, MaxSlippageBps, FeeSchedule,
     SelfTradePolicy, Status]
    case FeeKey(_) => [MakerBps, TakerBps]
    case LimitKey(_, _) => [AutoApproveLimit, DailyLimit, RequireManualReview]
  }

  /** Name each column that differs. */
  function Differing(cols: seq<Column>, b: Body, a: Body): seq<Column> {
    if cols == [] then []
    else (if ColumnOf(b, cols[0]) == ColumnOf(a, cols[0]) then [] else [cols[0]]) + Differing(cols[1..], b, a)
  }

  /** Where a column stands in its table's list. */
  function Rank(k: Key, c: Column): nat {
    match k
    case AssetKey(_) => AssetRank(c)
    case MarketKey(_) => MarketRank(c)
    case FeeKey(_) => (match c case MakerBps => 0 case TakerBps => 1 case _ => 99)
    case LimitKey(_, _) => (match c case AutoApproveLimit => 0 case DailyLimit => 1 case RequireManualReview => 2 case _ => 99)
  }

  function AssetRank(c: Column): nat {
    match c
    case Name => 0
    case ChainId => 1
    case ContractAddress => 2
    case IsNative => 3
    case Scale => 4
    case DisplayScale => 5
    case RequiredConfirmations => 6
    case MinDeposit => 7
    case MinWithdrawal => 8
    case WithdrawalFee => 9
    case WithdrawalFeeBps => 10
    case DepositFeeBps => 11
    case SweepThreshold => 12
    case DepositEnabled => 13
    case WithdrawEnabled => 14
    case Status => 15
    case _ => 99
  }

  function MarketRank(c: Column): nat {
    match c
    case BaseAsset => 0
    case QuoteAsset => 1
    case PriceTick => 2
    case QtyStep => 3
    case MinNotional => 4
    case MaxQty => 5
    case MaxSlippageBps => 6
    case FeeSchedule => 7
    case SelfTradePolicy => 8
    case Status => 9
    case _ => 99
  }

  lemma ColumnsRanked(k: Key, i: nat)
    requires i < |Columns(k)|
    ensures Rank(k, Columns(k)[i]) == i
  {
  }

  lemma AssetColumnsComplete(k: Key, b: Body, c: Column)
    requires k.AssetKey? && b.Asset?
    ensures if AssetRank(c) < |Columns(k)| then Columns(k)[AssetRank(c)] == c else ColumnOf(b, c) == Absent
  {
  }

  lemma MarketColumnsComplete(k: Key, b: Body, c: Column)
    requires k.MarketKey? && b.Market?
    ensures if MarketRank(c) < |Columns(k)| then Columns(k)[MarketRank(c)] == c else ColumnOf(b, c) == Absent
  {
  }

  /** The list has every column of the table. */
  lemma ColumnsComplete(k: Key, b: Body, c: Column)
    requires Fits(k, b)
    ensures if Rank(k, c) < |Columns(k)| then Columns(k)[Rank(k, c)] == c else ColumnOf(b, c) == Absent
  {
    match k
    case AssetKey(_) => AssetColumnsComplete(k, b, c);
    case MarketKey(_) => MarketColumnsComplete(k, b, c);
    case _ =>
  }

  lemma {:induction false} DifferingAmong(cols: seq<Column>, b: Body, a: Body)
    ensures forall c :: c in Differing(cols, b, a) <==> c in cols && ColumnOf(b, c) != ColumnOf(a, c)
    ensures (forall i, j :: 0 <= i < j < |cols| ==> cols[i] != cols[j]) ==>
      forall i, j :: 0 <= i < j < |Differing(cols, b, a)| ==> Differing(cols, b, a)[i] != Differing(cols, b, a)[j]
  {
    if cols != [] {
      DifferingAmong(cols[1..], b, a);
      assert forall c :: c in cols <==> c == cols[0] || c in cols[1..];
    }
  }

  lemma {:induction false} NothingDiffers(cols: seq<Column>, b: Body)
    ensures Differing(cols, b, b) == []
  {
    if cols != [] { NothingDiffers(cols[1..], b); }
  }

  /** The list names exactly the writable columns that differ, each once. */
  ghost predicate Lists(out: seq<Column>, b: Body, a: Body) {
    && (forall c :: c in out <==> ColumnOf(b, c) != ColumnOf(a, c))
    && (forall i, j :: 0 <= i < j < |out| ==> out[i] != out[j])
  }

  lemma DifferingExact(k: Key, b: Body, a: Body)
    requires Fits(k, b) && Fits(k, a)
    ensures Lists(Differing(Columns(k), b, a), b, a)
  {
    var cols := Columns(k);
    DifferingAmong(cols, b, a);
    forall i, j | 0 <= i < j < |cols| ensures cols[i] != cols[j] {
      ColumnsRanked(k, i);
      ColumnsRanked(k, j);
    }
    forall c | ColumnOf(b, c) != ColumnOf(a, c) ensures c in cols {
      ColumnsComplete(k, b, c);
      ColumnsComplete(k, a, c);
    }
  }

  // ---------------------------------------------------------------- transactions

  datatype Action = Create | Update | StatusUpdate | Reload
  datatype Target = OneRow(key: Key) | WholeRegistry
  datatype AuditRow = AuditRow(action: Action, target: Target, before: Option<map<Column, Value>>, after: map<Column, Value>)
  datatype Event = Event(target: Target, changed: seq<Column>, version: nat, occurredAt: int)

  /** The rows, and the audit records and events appended since the run began. */
  datatype Tables = Tables(rows: map<Key, Row>, audit: seq<AuditRow>, outbox: seq<Event>)

  datatype Write =
    | Upsert(key: Key, body: Body, create: bool, admissible: bool)
    | SetStatus(symbol: string, status: string)
    | RequestReload

  type CallId = nat

  /** A call between its read through the pool and its commit; `before` is the row it read. */
  datatype Call = Call(write: Write, before: Option<Row>)

  datatype World = World(
    tables: Tables,
    calls: map<CallId, Call>,
    start: map<Key, Row>,      // history: the rows when the run began
    echoes: seq<Key>)          // history: rows recorded as written by a commit that left them as they were

  datatype Stage = AtWrite | AtAudit | AtOutbox | AtCommit

  datatype Step =
    | Begin(call: CallId, write: Write, unreadable: bool)
    | Commit(call: CallId, at: int, fault: Option<Stage>)

  datatype Error = NotFound | AlreadyExists | Invalid | Database
  datatype Decision =
    | Refuse(e: Error)
    | Keep(kept: Row)
    | Put(key: Key, row: Row, action: Action, before: Option<Row>)
    | Announce
  datatype Result = Ok(row: Row) | Announced | Failed(e: Error)

  predicate ValidMarketStatus(s: string) {
    s == "active" || s == "halted" || s == "cancel_only" || s == "delisted"
  }

  /** The rows a row refers to. */
  predicate References(rows: map<Key, Row>, k: Key, b: Body) {
    match k
    case MarketKey(_) =>
      b.Market? ==> AssetKey(b.base) in rows && AssetKey(b.quote) in rows && FeeKey(b.feeSchedule) in rows
    case LimitKey(asset, _) => AssetKey(asset) in rows
    case _ => true
  }

  function TargetOf(w: Write): Target {
    match w
    case Upsert(k, _, _, _) => OneRow(k)
    case SetStatus(symbol, _) => OneRow(MarketKey(symbol))
    case RequestReload => WholeRegistry
  }

  function Current(rows: map<Key, Row>, target: Target): Option<Row> {
    if target.OneRow? && target.key in rows then Some(rows[target.key]) else None
  }

  /** What a call answers on its read through the pool, if it ends there. */
  function Refusal(rows: map<Key, Row>, w: Write): Option<Error> {
    match w
    case Upsert(k, b, create, admissible) =>
      if !Fits(k, b) then Some(Invalid)
      else if k.LimitKey? then if admissible then None else Some(Invalid)
      else if create && k in rows then Some(AlreadyExists)
      else if !create && k !in rows then Some(NotFound)
      else None
    case SetStatus(symbol, _) => if MarketKey(symbol) in rows then None else Some(NotFound)
    case RequestReload => None
  }

  /** INSERT .. ON CONFLICT DO UPDATE .. WHERE .. IS DISTINCT FROM: the row afterwards. */
  function Upserted(rows: map<Key, Row>, k: Key, b: Body): Row {
    if k !in rows then Row(b, 1) else if rows[k].body == b then rows[k] else Row(b, rows[k].version + 1)
  }

  /** The upsert's transaction: the row of now, the comparison and the action against the row read. */
  function DecideUpsert(rows: map<Key, Row>, k: Key, b: Body, admissible: bool, before: Option<Row>): Decision {
    if !admissible then Refuse(Invalid)
    else if !References(rows, k, b) then Refuse(NotFound)
    else if before.Some? && Upserted(rows, k, b).version == before.value.version then Keep(Upserted(rows, k, b))
    else Put(k, Upserted(rows, k, b), if before.Some? then Update else Create, before)
  }

  /** setMarketStatus compares inside the transaction; only the image it audits is the row read. */
  function DecideStatus(rows: map<Key, Row>, symbol: string, status: string, before: Option<Row>): Decision {
    var k := MarketKey(symbol);
    if !ValidMarketStatus(status) then Refuse(Invalid)
    else if k !in rows || !rows[k].body.Market? then Refuse(NotFound)
    else if rows[k].body.status == status then Keep(rows[k])
    else Put(k, Row(rows[k].body.(status := status), rows[k].version + 1), StatusUpdate, before)
  }

  function Decide(rows: map<Key, Row>, c: Call): Decision {
    match c.write
    case Upsert(k, b, _, admissible) => DecideUpsert(rows, k, b, admissible, c.before)
    case SetStatus(symbol, status) => DecideStatus(rows, symbol, status, c.before)
    case RequestReload => Announce
  }

  /** Whether the transaction gets as far as the statement that fails. */
  predicate Broken(fault: Option<Stage>, d: Decision) {
    match fault
    case None => false
    case Some(AtWrite) => !d.Refuse?
    case Some(AtAudit) => d.Put? || d.Announce?
    case Some(AtOutbox) => (d.Put? && !d.key.LimitKey?) || d.Announce?
    case Some(AtCommit) => !d.Refuse?
  }

  function StatusImage(r: Row): map<Column, Value>
    requires r.body.Market?
  {
    map[Status := Str(r.body.status), Version := Int(r.version)]
  }

  function AuditOf(before: Option<Row>, k: Key, row: Row, action: Action): AuditRow {
    if action == StatusUpdate && row.body.Market? && before.Some? && before.value.body.Market?
    then AuditRow(action, OneRow(k), Some(StatusImage(before.value)), StatusImage(row))
    else AuditRow(action, OneRow(k), if before.Some? then Some(Image(before.value)) else None, Image(row))
  }

  function ChangedOf(before: Option<Row>, k: Key, row: Row, action: Action): seq<Column> {
    if action == StatusUpdate then [Status]
    else if before.Some? then Differing(Columns(k), before.value.body, row.body)
    else [Created]
  }

  function Perform(t: Tables, d: Decision, at: int): Tables {
    match d
    case Refuse(_) => t
    case Keep(_) => t
    case Announce =>
      t.(audit := t.audit + [AuditRow(Reload, WholeRegistry, None, map[])],
         outbox := t.outbox + [Event(WholeRegistry, [], 0, at)])
    case Put(k, row, action, before) =>
      Tables(t.rows[k := row], t.audit + [AuditOf(before, k, row, action)],
             if k.LimitKey? then t.outbox
             else t.outbox + [Event(OneRow(k), ChangedOf(before, k, row, action), row.version, at)])
  }

  /** A record of a write that wrote nothing. */
  predicate IsEcho(rows: map<Key, Row>, d: Decision) {
    d.Put? && d.key in rows && rows[d.key] == d.row
  }

  function Apply(w: World, step: Step): World {
    match step
    case Begin(c, write, fault) =>
      if c in w.calls || fault || Refusal(w.tables.rows, write).Some? then w
      else w.(calls := w.calls[c := Call(write, Current(w.tables.rows, TargetOf(write)))])
    case Commit(c, at, fault) =>
      if c !in w.calls then w
      else
        var d := Decide(w.tables.rows, w.calls[c]);
        var ended := w.(calls := w.calls - {c});
        if Broken(fault, d) then ended
        else ended.(tables := Perform(w.tables, d, at),
                    echoes := if IsEcho(w.tables.rows, d) then w.echoes + [d.key] else w.echoes)
  }

  /** What a failing read answers; a limit is validated before it. */
  function Unread(w: Write): Error {
    if w.Upsert? && w.key.LimitKey? && !w.admissible then Invalid else Database
  }

  /** What the caller is told by a step that ends its call. */
  function AnswerTo(w: World, step: Step): Option<Result> {
    match step
    case Begin(c, write, fault) =>
      if c in w.calls then None
      else if fault then Some(Failed(Unread(write)))
      else if Refusal(w.tables.rows, write).Some? then Some(Failed(Refusal(w.tables.rows, write).value))
      else None
    case Commit(c, at, fault) =>
      if c !in w.calls then None
      else
        var d := Decide(w.tables.rows, w.calls[c]);
        if Broken(fault, d) then Some(Failed(Database))
        else match d
          case Refuse(e) => Some(Failed(e))
          case Keep(row) => Some(Ok(row))
          case Put(_, row, _, _) => Some(Ok(row))
          case Announce => Some(Announced)
  }

  function Run(w: World, steps: seq<Step>): World
    decreases |steps|
  {
    if steps == [] then w else Run(Apply(w, steps[0]), steps[1..])
  }

  /** A run begins over any rows: the seed fills the tables through the same upserts, without records. */
  function Starting(rows: map<Key, Row>): World {
    World(Tables(rows, [], []), map[], rows, [])
  }

  // ---------------------------------------------------------------- invariant

  function AuditsOf(audit: seq<AuditRow>, k: Key): nat {
    if audit == [] then 0
    else AuditsOf(audit[..|audit| - 1], k) + if audit[|audit| - 1].target == OneRow(k) then 1 else 0
  }

  function EventsOf(outbox: seq<Event>, k: Key): nat {
    if outbox == [] then 0
    else EventsOf(outbox[..|outbox| - 1], k) + if outbox[|outbox| - 1].target == OneRow(k) then 1 else 0
  }

  function EchoesOf(echoes: seq<Key>, k: Key): nat {
    if echoes == [] then 0
    else EchoesOf(echoes[..|echoes| - 1], k) + if echoes[|echoes| - 1] == k then 1 else 0
  }

  function VersionOf(rows: map<Key, Row>, k: Key): nat {
    if k in rows then rows[k].version else 0
  }

  /** Rebuild the tables from where the run began and the after-images of the audit trail. */
  function Replay(start: map<Key, Row>, audit: seq<AuditRow>): map<Key, Row> {
    if audit == [] then start
    else ReplayOne(Replay(start, audit[..|audit| - 1]), audit[|audit| - 1])
  }

  function ReplayOne(rows: map<Key, Row>, a: AuditRow): map<Key, Row> {
    match a.target
    case WholeRegistry => rows
    case OneRow(k) =>
      var n := AsInt(At(a.after, Version));
      var v: nat := if n >= 0 then n else 0;
      if a.action == StatusUpdate then
        if k in rows && rows[k].body.Market?
        then rows[k := Row(rows[k].body.(status := AsStr(At(a.after, Status))), v)] else rows
      else rows[k := Row(ReadBody(k, a.after), v)]
  }

  ghost predicate RowsSound(rows: map<Key, Row>) {
    forall k :: k in rows ==> Fits(k, rows[k].body) && rows[k].version >= 1 && References(rows, k, rows[k].body)
  }

  /** The row was k's once: k's version has grown since, or nothing has changed. */
  ghost predicate WasRow(rows: map<Key, Row>, k: Key, old_: Row) {
    && k in rows && Fits(k, old_.body)
    && old_.version <= rows[k].version && (old_.version == rows[k].version ==> old_ == rows[k])
  }

  /** What a call read is what was there at some moment since the run began. */
  ghost predicate ReadSince(w: World, k: Key, before: Option<Row>) {
    match before
    case None => k !in w.start
    case Some(b) => WasRow(w.tables.rows, k, b) && VersionOf(w.start, k) <= b.version
  }

  ghost predicate CallSound(w: World, c: Call) {
    match c.write
    case Upsert(k, b, create, _) => Fits(k, b) && ReadSince(w, k, c.before) && (!k.LimitKey? ==> (create <==> c.before.None?))
    case SetStatus(symbol, _) => c.before.Some? && ReadSince(w, MarketKey(symbol), c.before)
    case RequestReload => true
  }

  ghost predicate CallsSound(w: World) {
    forall c :: c in w.calls ==> CallSound(w, w.calls[c])
  }

  ghost predicate StartSound(w: World) {
    forall k :: k in w.start ==> WasRow(w.tables.rows, k, w.start[k])
  }

  /** One audit record and, where due, one event for each version since the start, and one for each echo. */
  ghost predicate CountedAt(w: World, k: Key) {
    && AuditsOf(w.tables.audit, k) == VersionOf(w.tables.rows, k) - VersionOf(w.start, k) + EchoesOf(w.echoes, k)
    && EventsOf(w.tables.outbox, k) == if k.LimitKey? then 0 else AuditsOf(w.tables.audit, k)
  }

  ghost predicate Counted(w: World) {
    forall k :: CountedAt(w, k)
  }

  ghost predicate Audited(audit: seq<AuditRow>, k: Key, version: nat) {
    exists i :: 0 <= i < |audit| && audit[i].target == OneRow(k) && At(audit[i].after, Version) == Int(version)
  }

  ghost predicate Announces(outbox: seq<Event>, k: Key, version: nat) {
    exists i :: 0 <= i < |outbox| && outbox[i].target == OneRow(k) && outbox[i].version == version
  }

  /** No version goes unrecorded. */
  ghost predicate Complete(w: World) {
    forall k, v: nat :: VersionOf(w.start, k) < v <= VersionOf(w.tables.rows, k) ==>
      Audited(w.tables.audit, k, v) && (!k.LimitKey? ==> Announces(w.tables.outbox, k, v))
  }

  /** An event's row exists and is at least as new as the event says. */
  ghost predicate EventSound(w: World, e: Event) {
    e.target.OneRow? ==>
      !e.target.key.LimitKey? && VersionOf(w.start, e.target.key) < e.version <= VersionOf(w.tables.rows, e.target.key)
  }

  ghost predicate EventsSound(w: World) {
    forall i :: 0 <= i < |w.tables.outbox| ==> EventSound(w, w.tables.outbox[i])
  }

  /** Events about one row never go back in version. */
  ghost predicate InOrder(outbox: seq<Event>) {
    forall i, j :: 0 <= i < j < |outbox| && outbox[i].target.OneRow? && outbox[i].target == outbox[j].target ==>
      outbox[i].version <= outbox[j].version
  }

  /** The n-th event about k since the start carries the n-th version since the start. */
  ghost predicate NumberedAt(start: map<Key, Row>, outbox: seq<Event>, k: Key) {
    forall i :: 0 <= i < |outbox| && outbox[i].target == OneRow(k) ==>
      outbox[i].version == VersionOf(start, k) + EventsOf(outbox[..i + 1], k)
  }

  ghost predicate Numbered(w: World) {
    forall k :: EchoesOf(w.echoes, k) == 0 ==> NumberedAt(w.start, w.tables.outbox, k)
  }

  ghost predicate RecordsSound(w: World) {
    && Counted(w) && Complete(w) && EventsSound(w) && InOrder(w.tables.outbox) && Numbered(w)
    && Replay(w.start, w.tables.audit) == w.tables.rows
  }

  ghost predicate Inv(w: World) {
    RowsSound(w.tables.rows) && StartSound(w) && CallsSound(w) && RecordsSound(w)
  }

  // ---------------------------------------------------------------- one commit

  /** What a decision to write means for the row, whatever was read before. */
  ghost predicate PutSound(w: World, d: Decision)
    requires d.Put?
  {
    var rows := w.tables.rows;
    && Fits(d.key, d.row.body) && References(rows, d.key, d.row.body) && d.action != Reload
    && VersionOf(w.start, d.key) < d.row.version
    && (d.row.version == VersionOf(rows, d.key) + 1 || IsEcho(rows, d))
    && (d.action == StatusUpdate ==> StatusPut(rows, d))
    && (d.before.Some? ==> WasRow(rows, d.key, d.before.value) && d.before.value.version < d.row.version)
  }

  /** A status write changes the status alone, and always changes it. */
  predicate StatusPut(rows: map<Key, Row>, d: Decision)
    requires d.Put?
  {
    && d.key in rows && rows[d.key].body.Market? && d.row.body.Market?
    && d.row.body == rows[d.key].body.(status := d.row.body.status)
    && d.row.body.status != rows[d.key].body.status && d.row.version == rows[d.key].version + 1
    && d.before.Some? && d.before.value.body.Market?
  }

  lemma DecisionSound(w: World, c: Call)
    requires Inv(w) && CallSound(w, c)
    ensures var d := Decide(w.tables.rows, c); d.Put? ==> PutSound(w, d) && d.before == c.before && TargetOf(c.write) == OneRow(d.key)
  {
    var d := Decide(w.tables.rows, c);
    if d.Put? && d.key in w.start { assert WasRow(w.tables.rows, d.key, w.start[d.key]); }
  }

  lemma PutReplays(rows: map<Key, Row>, d: Decision)
    requires d.Put? && Fits(d.key, d.row.body) && d.action != Reload
    requires d.action == StatusUpdate ==> StatusPut(rows, d)
    ensures ReplayOne(rows, AuditOf(d.before, d.key, d.row, d.action)) == rows[d.key := d.row]
    ensures At(AuditOf(d.before, d.key, d.row, d.action).after, Version) == Int(d.row.version)
  {
    if d.action != StatusUpdate { ImageRoundTrip(d.key, d.row); }
  }

  lemma RowsAfterPut(rows: map<Key, Row>, k: Key, row: Row)
    requires RowsSound(rows) && Fits(k, row.body) && row.version >= 1 && References(rows, k, row.body)
    ensures RowsSound(rows[k := row])
  {
  }

  /** Old rows stay old. */
  lemma WasRowAfterPut(rows: map<Key, Row>, k: Key, row: Row, x: Key, old_: Row)
    requires WasRow(rows, x, old_)
    requires k in rows ==> row.version == rows[k].version + 1 || row == rows[k]
    ensures WasRow(rows[k := row], x, old_)
  {
  }

  lemma AuditsAppend(audit: seq<AuditRow>, a: AuditRow, k: Key)
    ensures AuditsOf(audit + [a], k) == AuditsOf(audit, k) + if a.target == OneRow(k) then 1 else 0
  {
    assert (audit + [a])[..|audit|] == audit;
  }

  lemma EventsAppend(outbox: seq<Event>, e: Event, k: Key)
    ensures EventsOf(outbox + [e], k) == EventsOf(outbox, k) + if e.target == OneRow(k) then 1 else 0
  {
    assert (outbox + [e])[..|outbox|] == outbox;
  }

  lemma EchoesAppend(echoes: seq<Key>, e: Key, k: Key)
    ensures EchoesOf(echoes + [e], k) == EchoesOf(echoes, k) + if e == k then 1 else 0
  {
    assert (echoes + [e])[..|echoes|] == echoes;
  }

  lemma ReplayAppend(start: map<Key, Row>, audit: seq<AuditRow>, a: AuditRow)
    ensures Replay(start, audit + [a]) == ReplayOne(Replay(start, audit), a)
  {
    assert (audit + [a])[..|audit|] == audit;
  }

  /** The world after k has been written as row, recorded by a and, where due, by e. */
  ghost predicate PutDone(w: World, k: Key, row: Row, a: AuditRow, e: Event, w': World) {
    var t := w.tables; var t' := w'.tables;
    && w'.start == w.start
    && t'.rows == t.rows[k := row] && t'.audit == t.audit + [a] && t'.outbox == (if k.LimitKey? then t.outbox else t.outbox + [e])
    && w'.echoes == (if k in t.rows && t.rows[k] == row then w.echoes + [k] else w.echoes)
    && a.target == OneRow(k) && At(a.after, Version) == Int(row.version) && ReplayOne(t.rows, a) == t.rows[k := row]
    && e.target == OneRow(k) && e.version == row.version
    && VersionOf(w.start, k) < row.version
    && (k in t.rows ==> row.version == t.rows[k].version + 1 || row == t.rows[k]) && (k !in t.rows ==> row.version == 1)
  }

  lemma PutKeepsCounts(w: World, k: Key, row: Row, a: AuditRow, e: Event, w': World)
    requires Counted(w) && PutDone(w, k, row, a, e, w')
    ensures Counted(w')
  {
    forall x ensures CountedAt(w', x) {
      assert CountedAt(w, x);
      AuditsAppend(w.tables.audit, a, x);
      EventsAppend(w.tables.outbox, e, x);
      EchoesAppend(w.echoes, k, x);
    }
  }

  lemma AuditedAppend(audit: seq<AuditRow>, a: AuditRow, k: Key, v: nat)
    ensures Audited(audit, k, v) ==> Audited(audit + [a], k, v)
    ensures a.target == OneRow(k) && At(a.after, Version) == Int(v) ==> Audited(audit + [a], k, v)
  {
    var all := audit + [a];
    if Audited(audit, k, v) {
      var i :| 0 <= i < |audit| && audit[i].target == OneRow(k) && At(audit[i].after, Version) == Int(v);
      assert all[i] == audit[i];
    }
    assert all[|audit|] == a;
  }

  lemma AnnouncesAppend(outbox: seq<Event>, e: Event, k: Key, v: nat)
    ensures Announces(outbox, k, v) ==> Announces(outbox + [e], k, v)
    ensures e.target == OneRow(k) && e.version == v ==> Announces(outbox + [e], k, v)
  {
    var all := outbox + [e];
    if Announces(outbox, k, v) {
      var i :| 0 <= i < |outbox| && outbox[i].target == OneRow(k) && outbox[i].version == v;
      assert all[i] == outbox[i];
    }
    assert all[|outbox|] == e;
  }

  lemma PutKeepsComplete(w: World, k: Key, row: Row, a: AuditRow, e: Event, w': World)
    requires Complete(w) && PutDone(w, k, row, a, e, w')
    ensures Complete(w')
  {
    forall x, v: nat | VersionOf(w'.start, x) < v <= VersionOf(w'.tables.rows, x)
      ensures Audited(w'.tables.audit, x, v) && (!x.LimitKey? ==> Announces(w'.tables.outbox, x, v))
    {
      AuditedAppend(w.tables.audit, a, x, v);
      AnnouncesAppend(w.tables.outbox, e, x, v);
    }
  }

  /** An event about k carries a version at least as high as any before it. */
  lemma EventsAfterPut(w: World, k: Key, row: Row, a: AuditRow, e: Event, w': World)
    requires EventsSound(w) && InOrder(w.tables.outbox) && PutDone(w, k, row, a, e, w')
    ensures EventsSound(w') && InOrder(w'.tables.outbox)
  {
    var o, o' := w.tables.outbox, w'.tables.outbox;
    forall i | 0 <= i < |o'| ensures EventSound(w', o'[i]) {
      if i < |o| { assert EventSound(w, o[i]); }
    }
    forall i, j | 0 <= i < j < |o'| && o'[i].target.OneRow? && o'[i].target == o'[j].target ensures o'[i].version <= o'[j].version {
      assert EventSound(w, o[i]);
    }
  }

  lemma NumberedAppend(start: map<Key, Row>, outbox: seq<Event>, e: Event, k: Key)
    requires NumberedAt(start, outbox, k)
    requires e.target == OneRow(k) ==> e.version == VersionOf(start, k) + EventsOf(outbox, k) + 1
    ensures NumberedAt(start, outbox + [e], k)
  {
    var all := outbox + [e];
    EventsAppend(outbox, e, k);
    forall i | 0 <= i < |all| && all[i].target == OneRow(k) ensures all[i].version == VersionOf(start, k) + EventsOf(all[..i + 1], k) {
      if i < |outbox| { assert all[..i + 1] == outbox[..i + 1]; } else { assert all[..i + 1] == all; }
    }
  }

  lemma PutKeepsNumbers(w: World, k: Key, row: Row, a: AuditRow, e: Event, w': World)
    requires Numbered(w) && Counted(w) && PutDone(w, k, row, a, e, w')
    ensures Numbered(w')
  {
    forall x | EchoesOf(w'.echoes, x) == 0 ensures NumberedAt(w'.start, w'.tables.outbox, x) {
      EchoesAppend(w.echoes, k, x);
      assert CountedAt(w, x);
      if !k.LimitKey? { NumberedAppend(w.start, w.tables.outbox, e, x); }
    }
  }

  lemma PutKeepsRecords(w: World, k: Key, row: Row, a: AuditRow, e: Event, w': World)
    requires RecordsSound(w) && PutDone(w, k, row, a, e, w')
    ensures RecordsSound(w')
  {
    PutKeepsCounts(w, k, row, a, e, w');
    PutKeepsComplete(w, k, row, a, e, w');
    EventsAfterPut(w, k, row, a, e, w');
    PutKeepsNumbers(w, k, row, a, e, w');
    ReplayAppend(w.start, w.tables.audit, a);
  }

  lemma PutKeepsReads(w: World, k: Key, row: Row, a: AuditRow, e: Event, w': World)
    requires StartSound(w) && CallsSound(w) && PutDone(w, k, row, a, e, w')
    requires forall c :: c in w'.calls ==> c in w.calls && w'.calls[c] == w.calls[c]
    ensures StartSound(w') && CallsSound(w')
  {
    forall x | x in w'.start ensures WasRow(w'.tables.rows, x, w'.start[x]) {
      WasRowAfterPut(w.tables.rows, k, row, x, w.start[x]);
    }
    forall c | c in w'.calls ensures CallSound(w', w'.calls[c]) {
      assert CallSound(w, w.calls[c]);
      var t := TargetOf(w.calls[c].write);
      if t.OneRow? && w.calls[c].before.Some? { WasRowAfterPut(w.tables.rows, k, row, t.key, w.calls[c].before.value); }
    }
  }

  lemma PutIsDone(w: World, d: Decision, at: int, w': World)
    requires d.Put? && PutSound(w, d)
    requires w'.start == w.start && w'.tables == Perform(w.tables, d, at)
    requires w'.echoes == if IsEcho(w.tables.rows, d) then w.echoes + [d.key] else w.echoes
    ensures PutDone(w, d.key, d.row, AuditOf(d.before, d.key, d.row, d.action),
                    Event(OneRow(d.key), ChangedOf(d.before, d.key, d.row, d.action), d.row.version, at), w')
  {
    PutReplays(w.tables.rows, d);
  }

  lemma PutKeepsInv(w: World, k: Key, row: Row, a: AuditRow, e: Event, w': World)
    requires Inv(w) && PutDone(w, k, row, a, e, w') && Fits(k, row.body) && References(w.tables.rows, k, row.body)
    requires forall c :: c in w'.calls ==> c in w.calls && w'.calls[c] == w.calls[c]
    ensures Inv(w')
  {
    RowsAfterPut(w.tables.rows, k, row);
    PutKeepsReads(w, k, row, a, e, w');
    PutKeepsRecords(w, k, row, a, e, w');
  }

  lemma SameRowsKeepReads(w: World, w': World)
    requires StartSound(w) && CallsSound(w) && w'.start == w.start && w'.tables.rows == w.tables.rows
    requires forall c :: c in w'.calls ==> c in w.calls && w'.calls[c] == w.calls[c]
    ensures StartSound(w') && CallsSound(w')
  {
    forall x | x in w'.calls ensures CallSound(w', w'.calls[x]) { assert CallSound(w, w.calls[x]); }
  }

  /** The calls go on, nothing else happens. */
  lemma QuietKeepsInv(w: World, w': World)
    requires Inv(w) && w'.start == w.start && w'.echoes == w.echoes && w'.tables == w.tables
    requires forall c :: c in w'.calls ==> c in w.calls && w'.calls[c] == w.calls[c]
    ensures Inv(w')
  {
    SameRecords(w, w');
    SameRowsKeepReads(w, w');
  }

  /** An announcement about the whole registry. */
  lemma AnnounceKeepsRecords(w: World, a: AuditRow, e: Event, w': World)
    requires RecordsSound(w) && w'.start == w.start && w'.echoes == w.echoes && a.target == WholeRegistry && e.target == WholeRegistry
    requires w'.tables == Tables(w.tables.rows, w.tables.audit + [a], w.tables.outbox + [e])
    ensures RecordsSound(w')
  {
    ReplayAppend(w.start, w.tables.audit, a);
    forall k ensures CountedAt(w', k) {
      assert CountedAt(w, k);
      AuditsAppend(w.tables.audit, a, k);
      EventsAppend(w.tables.outbox, e, k);
    }
    forall k | EchoesOf(w'.echoes, k) == 0 ensures NumberedAt(w'.start, w'.tables.outbox, k) {
      NumberedAppend(w.start, w.tables.outbox, e, k);
    }
    forall k, v: nat | VersionOf(w'.start, k) < v <= VersionOf(w'.tables.rows, k)
      ensures Audited(w'.tables.audit, k, v) && (!k.LimitKey? ==> Announces(w'.tables.outbox, k, v))
    {
      AuditedAppend(w.tables.audit, a, k, v);
      AnnouncesAppend(w.tables.outbox, e, k, v);
    }
    forall i | 0 <= i < |w'.tables.outbox| ensures EventSound(w', w'.tables.outbox[i]) {
      if i < |w.tables.outbox| { assert EventSound(w, w.tables.outbox[i]); }
    }
  }

  lemma SameRecords(w: World, w': World)
    requires RecordsSound(w) && w'.start == w.start && w'.echoes == w.echoes && w'.tables == w.tables
    ensures RecordsSound(w')
  {
    forall k ensures CountedAt(w', k) { assert CountedAt(w, k); }
    forall i | 0 <= i < |w'.tables.outbox| ensures EventSound(w', w'.tables.outbox[i]) { assert EventSound(w, w.tables.outbox[i]); }
  }

  lemma AnnounceKeepsInv(w: World, at: int, w': World)
    requires Inv(w) && w'.start == w.start && w'.echoes == w.echoes && w'.tables == Perform(w.tables, Announce, at)
    requires forall c :: c in w'.calls ==> c in w.calls && w'.calls[c] == w.calls[c]
    ensures Inv(w')
  {
    AnnounceKeepsRecords(w, AuditRow(Reload, WholeRegistry, None, map[]), Event(WholeRegistry, [], 0, at), w');
    SameRowsKeepReads(w, w');
  }

  lemma CallIsSound(w: World, c: CallId)
    requires Inv(w) && c in w.calls
    ensures CallSound(w, w.calls[c])
  {
  }

  lemma CommitKeepsInv(w: World, c: CallId, at: int, fault: Option<Stage>)
    requires Inv(w)
    ensures Inv(Apply(w, Commit(c, at, fault)))
  {
    if c in w.calls {
      var w' := Apply(w, Commit(c, at, fault));
      var d := Decide(w.tables.rows, w.calls[c]);
      CallIsSound(w, c);
      DecisionSound(w, w.calls[c]);
      if !Broken(fault, d) && d.Put? {
        PutIsDone(w, d, at, w');
        PutKeepsInv(w, d.key, d.row, AuditOf(d.before, d.key, d.row, d.action),
                    Event(OneRow(d.key), ChangedOf(d.before, d.key, d.row, d.action), d.row.version, at), w');
      } else if !Broken(fault, d) && d.Announce? {
        AnnounceKeepsInv(w, at, w');
      } else {
        QuietKeepsInv(w, w');
      }
    }
  }

  lemma BeginKeepsInv(w: World, c: CallId, write: Write, fault: bool)
    requires Inv(w)
    ensures Inv(Apply(w, Begin(c, write, fault)))
  {
    var w' := Apply(w, Begin(c, write, fault));
    forall x | x in w'.calls ensures CallSound(w', w'.calls[x]) {
      if x in w.calls {
        assert CallSound(w, w.calls[x]);
      } else {
        var t := TargetOf(write);
        if t.OneRow? && t.key in w.start { assert WasRow(w.tables.rows, t.key, w.start[t.key]); }
      }
    }
    SameRecords(w, w');
  }

  lemma StepKeepsInv(w: World, step: Step)
    requires Inv(w)
    ensures Inv(Apply(w, step))
  {
    match step
    case Begin(c, write, fault) => BeginKeepsInv(w, c, write, fault);
    case Commit(c, at, fault) => CommitKeepsInv(w, c, at, fault);
  }

  lemma {:induction false} RunKeepsInv(w: World, steps: seq<Step>)
    requires Inv(w)
    ensures Inv(Run(w, steps)) && Run(w, steps).start == w.start
    decreases |steps|
  {
    if steps != [] {
      StepKeepsInv(w, steps[0]);
      RunKeepsInv(Apply(w, steps[0]), steps[1..]);
    }
  }

  lemma StartingSound(rows: map<Key, Row>)
    requires RowsSound(rows)
    ensures Inv(Starting(rows))
  {
  }

  // ---------------------------------------------------------------- what every interleaving keeps

  /**
   Whatever rows a run starts from and however its calls overlap: every version
   written since has an audit record and, withdrawal limits aside, an event; the
   records that exceed the versions are the echoes; events about a row never go back;
   and the start rows and the audit trail alone rebuild every table.
   */
  lemma EveryRunIsRecorded(start: map<Key, Row>, steps: seq<Step>)
    requires RowsSound(start)
    ensures var w := Run(Starting(start), steps);
      && w.start == start && RowsSound(w.tables.rows) && StartSound(w)
      && Counted(w) && Complete(w) && EventsSound(w) && InOrder(w.tables.outbox)
      && Replay(start, w.tables.audit) == w.tables.rows
  {
    StartingSound(start);
    RunKeepsInv(Starting(start), steps);
  }

  lemma {:induction false} EchoesAmong(echoes: seq<Key>, k: Key)
    ensures EchoesOf(echoes, k) == 0 <==> k !in echoes
  {
    if echoes != [] {
      var n := |echoes| - 1;
      EchoesAmong(echoes[..n], k);
      assert echoes == echoes[..n] + [echoes[n]];
    }
  }

  /** The last event about k, with nothing about k after it. */
  lemma {:induction false} LastEvent(outbox: seq<Event>, k: Key) returns (i: nat)
    requires EventsOf(outbox, k) > 0
    ensures i < |outbox| && outbox[i].target == OneRow(k) && EventsOf(outbox[..i + 1], k) == EventsOf(outbox, k)
    decreases |outbox|
  {
    var n := |outbox| - 1;
    if outbox[n].target == OneRow(k) {
      i := n;
      assert outbox[..n + 1] == outbox;
    } else {
      i := LastEvent(outbox[..n], k);
      assert outbox[..n][..i + 1] == outbox[..i + 1];
    }
  }

  /**
   The accounts of a row balance, with as many audit records and events as
   versions and the events numbered through, exactly when no commit recorded the
   row as written and left it as it was.
   */
  lemma AccountsBalanceIff(start: map<Key, Row>, steps: seq<Step>, k: Key)
    requires RowsSound(start)
    ensures var w := Run(Starting(start), steps);
      && (AuditsOf(w.tables.audit, k) == VersionOf(w.tables.rows, k) - VersionOf(start, k) <==> k !in w.echoes)
      && (!k.LimitKey? ==> (NumberedAt(start, w.tables.outbox, k) <==> k !in w.echoes))
  {
    StartingSound(start);
    RunKeepsInv(Starting(start), steps);
    var w := Run(Starting(start), steps);
    assert CountedAt(w, k);
    EchoesAmong(w.echoes, k);
    if !k.LimitKey? && k in w.echoes {
      if k in start { assert WasRow(w.tables.rows, k, start[k]); }
      var i := LastEvent(w.tables.outbox, k);
      assert EventSound(w, w.tables.outbox[i]);
    }
  }

  /** A commit echoes exactly when it upserts what the row already is and had read something else. */
  lemma EchoIff(w: World, c: CallId, at: int, fault: Option<Stage>)
    requires Inv(w) && c in w.calls
    ensures var call := w.calls[c];
      Apply(w, Commit(c, at, fault)).echoes != w.echoes <==>
        && call.write.Upsert? && call.write.admissible && !Broken(fault, Decide(w.tables.rows, call))
        && References(w.tables.rows, call.write.key, call.write.body)
        && call.write.key in w.tables.rows && w.tables.rows[call.write.key].body == call.write.body
        && call.before != Some(w.tables.rows[call.write.key])
  {
    assert CallSound(w, w.calls[c]);
    var d := Decide(w.tables.rows, w.calls[c]);
    if d.Put? { assert |w.echoes + [d.key]| == |w.echoes| + 1; }
  }

  // ---------------------------------------------------------------- when a record is exact

  /** The record shows every column that changed, and the version, as it was and as it is. */
  ghost predicate ShowsChange(a: AuditRow, before: Option<Row>, row: Row) {
    && (a.before.Some? <==> before.Some?)
    && At(a.after, Version) == Int(row.version)
    && (before.None? ==> Shows(a.after, row.body))
    && (before.Some? ==>
        && At(a.before.value, Version) == Int(before.value.version)
        && forall c :: ColumnOf(before.value.body, c) != ColumnOf(row.body, c) ==>
            At(a.before.value, c) == ColumnOf(before.value.body, c) && At(a.after, c) == ColumnOf(row.body, c))
  }

  lemma VersionIsNoColumn(b: Body)
    ensures ColumnOf(b, Version) == Absent
  {
  }

  lemma StatusOnly(b: Body, status: string)
    requires b.Market?
    ensures forall c :: c != Status ==> ColumnOf(b, c) == ColumnOf(b.(status := status), c)
    ensures b.status != status ==> Lists([Status], b, b.(status := status))
  {
  }

  /** An upsert's record and event tell the change from the row it read to the row it leaves. */
  lemma UpsertShowsWhatWasRead(d: Decision)
    requires d.Put? && d.action != StatusUpdate && Fits(d.key, d.row.body)
    requires d.before.Some? ==> Fits(d.key, d.before.value.body)
    ensures ShowsChange(AuditOf(d.before, d.key, d.row, d.action), d.before, d.row)
    ensures d.before.Some? ==> Lists(ChangedOf(d.before, d.key, d.row, d.action), d.before.value.body, d.row.body)
  {
    ImageShows(d.row);
    if d.before.Some? {
      ImageShows(d.before.value);
      VersionIsNoColumn(d.before.value.body);
      VersionIsNoColumn(d.row.body);
      DifferingExact(d.key, d.before.value.body, d.row.body);
    }
  }

  lemma StatusShowsWhatWasRead(rows: map<Key, Row>, d: Decision)
    requires d.Put? && d.action == StatusUpdate && StatusPut(rows, d) && d.before == Some(rows[d.key])
    ensures ShowsChange(AuditOf(d.before, d.key, d.row, d.action), d.before, d.row)
    ensures Lists(ChangedOf(d.before, d.key, d.row, d.action), d.before.value.body, d.row.body)
  {
    StatusOnly(rows[d.key].body, d.row.body.status);
  }

  /** A new version of row k: one audit record with the images of both sides and, limits aside, one exact event. */
  ghost predicate Written(t: Tables, t': Tables, k: Key, row: Row) {
    && t'.rows == t.rows[k := row] && row.version == VersionOf(t.rows, k) + 1
    && |t'.audit| == |t.audit| + 1 && t'.audit[..|t.audit|] == t.audit && t'.audit[|t.audit|].target == OneRow(k)
    && ReplayOne(t.rows, t'.audit[|t.audit|]) == t'.rows
    && ShowsChange(t'.audit[|t.audit|], Current(t.rows, OneRow(k)), row)
    && (k.LimitKey? ==> t'.outbox == t.outbox)
    && (!k.LimitKey? ==>
        && |t'.outbox| == |t.outbox| + 1 && t'.outbox[..|t.outbox|] == t.outbox
        && t'.outbox[|t.outbox|].target == OneRow(k) && t'.outbox[|t.outbox|].version == row.version
        && (k !in t.rows ==> t'.outbox[|t.outbox|].changed == [Created])
        && (k in t.rows ==> Lists(t'.outbox[|t.outbox|].changed, t.rows[k].body, row.body)))
  }

  /** What an exact answer says about the tables before and after. */
  ghost predicate Honest(t: Tables, t': Tables, target: Target, res: Result) {
    match res
    case Failed(_) => t' == t
    case Announced => t'.rows == t.rows && |t'.audit| == |t.audit| + 1 && |t'.outbox| == |t.outbox| + 1
    case Ok(row) =>
      && target.OneRow?
      && (t' == t ==> target.key in t.rows && t.rows[target.key] == row)
      && (t' != t ==> Written(t, t', target.key, row))
  }

  /** The row met by the transaction is the row read before it. */
  predicate Fresh(w: World, c: CallId)
    requires c in w.calls
  {
    w.calls[c].before == Current(w.tables.rows, TargetOf(w.calls[c].write))
  }

  lemma FreshPutIsWritten(w: World, d: Decision, at: int)
    requires Inv(w) && d.Put? && PutSound(w, d) && d.before == Current(w.tables.rows, OneRow(d.key))
    ensures Written(w.tables, Perform(w.tables, d, at), d.key, d.row)
  {
    PutReplays(w.tables.rows, d);
    if d.action == StatusUpdate { StatusShowsWhatWasRead(w.tables.rows, d); } else { UpsertShowsWhatWasRead(d); }
  }

  lemma StalePutIsNotWritten(w: World, d: Decision, at: int)
    requires Inv(w) && d.Put? && PutSound(w, d) && d.before != Current(w.tables.rows, OneRow(d.key))
    ensures !Written(w.tables, Perform(w.tables, d, at), d.key, d.row)
  {
    var a := AuditOf(d.before, d.key, d.row, d.action);
    assert Perform(w.tables, d, at).audit[|w.tables.audit|] == a;
    if d.before.Some? {
      ImageShows(d.before.value);
      assert At(a.before.value, Version) == Int(d.before.value.version);
    }
  }

  /**
   A commit that succeeds is recorded exactly, one audit record and one event with
   an exact list for a new version and nothing for a row left alone, if and only if
   it met the row it had read; a status that is already set needs no such luck.
   */
  lemma CommitIsExactIff(w: World, c: CallId, at: int, fault: Option<Stage>)
    requires Inv(w) && c in w.calls && AnswerTo(w, Commit(c, at, fault)).value.Ok?
    ensures var call := w.calls[c]; var target := TargetOf(call.write);
      Honest(w.tables, Apply(w, Commit(c, at, fault)).tables, target, AnswerTo(w, Commit(c, at, fault)).value) <==>
        Fresh(w, c) || (call.write.SetStatus? && w.tables.rows[target.key].body.status == call.write.status)
  {
    var d := Decide(w.tables.rows, w.calls[c]);
    assert CallSound(w, w.calls[c]);
    DecisionSound(w, w.calls[c]);
    if d.Put? {
      assert |Perform(w.tables, d, at).audit| == |w.tables.audit| + 1;
      if Fresh(w, c) { FreshPutIsWritten(w, d, at); } else { StalePutIsNotWritten(w, d, at); }
    }
  }

  /** Any other commit, and any call that ends on its read, is exact as well. */
  lemma OtherAnswersAreExact(w: World, step: Step)
    requires AnswerTo(w, step).Some? && !AnswerTo(w, step).value.Ok?
    ensures Honest(w.tables, Apply(w, step).tables, WholeRegistry, AnswerTo(w, step).value)
  {
  }

  /** Every commit of the run meets the row its call read. */
  ghost predicate FreshRun(w: World, steps: seq<Step>)
    decreases |steps|
  {
    steps != [] ==>
      && (steps[0].Commit? && steps[0].call in w.calls ==> Fresh(w, steps[0].call))
      && FreshRun(Apply(w, steps[0]), steps[1..])
  }

  lemma {:induction false} FreshRunHasNoEcho(w: World, steps: seq<Step>)
    requires Inv(w) && FreshRun(w, steps)
    ensures Run(w, steps).echoes == w.echoes
    decreases |steps|
  {
    if steps != [] {
      StepKeepsInv(w, steps[0]);
      if steps[0].Commit? && steps[0].call in w.calls { EchoIff(w, steps[0].call, steps[0].at, steps[0].fault); }
      FreshRunHasNoEcho(Apply(w, steps[0]), steps[1..]);
    }
  }

  /**
   When no commit meets a row that changed since it was read: versions since the
   start equal audit records and, limits aside, events, numbered through.
   */
  lemma EveryWriteIsAudited(start: map<Key, Row>, steps: seq<Step>)
    requires RowsSound(start) && FreshRun(Starting(start), steps)
    ensures var w := Run(Starting(start), steps);
      && (forall k :: AuditsOf(w.tables.audit, k) == VersionOf(w.tables.rows, k) - VersionOf(start, k))
      && (forall k :: EventsOf(w.tables.outbox, k) == if k.LimitKey? then 0 else VersionOf(w.tables.rows, k) - VersionOf(start, k))
      && (forall k :: NumberedAt(start, w.tables.outbox, k))
  {
    StartingSound(start);
    RunKeepsInv(Starting(start), steps);
    FreshRunHasNoEcho(Starting(start), steps);
    var w := Run(Starting(start), steps);
    assert w.echoes == [];
    forall k
      ensures AuditsOf(w.tables.audit, k) == VersionOf(w.tables.rows, k) - VersionOf(start, k)
      ensures EventsOf(w.tables.outbox, k) == if k.LimitKey? then 0 else VersionOf(w.tables.rows, k) - VersionOf(start, k)
    {
      assert CountedAt(w, k) && EchoesOf(w.echoes, k) == 0;
    }
  }

  lemma BeginOnlyReads(w: World, c: CallId, write: Write, readFault: bool)
    requires c !in w.calls
    ensures var w1 := Apply(w, Begin(c, write, readFault));
      && w1.tables == w.tables && w1.echoes == w.echoes && w1.calls - {c} == w.calls
      && (c in w1.calls <==> AnswerTo(w, Begin(c, write, readFault)).None?)
      && (c in w1.calls ==> w1.calls[c].write == write && Fresh(w1, c))
      && (c !in w1.calls ==> w1 == w && AnswerTo(w, Begin(c, write, readFault)).value.Failed?)
  {
  }

  lemma FreshCommitIsExact(w: World, c: CallId, at: int, fault: Option<Stage>)
    requires Inv(w) && c in w.calls && Fresh(w, c)
    ensures AnswerTo(w, Commit(c, at, fault)).Some?
    ensures Honest(w.tables, Apply(w, Commit(c, at, fault)).tables, TargetOf(w.calls[c].write), AnswerTo(w, Commit(c, at, fault)).value)
    ensures Apply(w, Commit(c, at, fault)).calls == w.calls - {c} && Apply(w, Commit(c, at, fault)).echoes == w.echoes
  {
    EchoIff(w, c, at, fault);
    if AnswerTo(w, Commit(c, at, fault)).value.Ok? {
      CommitIsExactIff(w, c, at, fault);
    } else {
      OtherAnswersAreExact(w, Commit(c, at, fault));
    }
  }

  lemma RunTwo(w: World, a: Step, b: Step)
    ensures Run(w, [a, b]) == Apply(Apply(w, a), b)
  {
    assert [a, b][1..] == [b] && [b][1..] == [];
    assert Run(Apply(w, a), [b]) == Run(Apply(Apply(w, a), b), []);
  }

  /** The answer of a call with nothing between its read and its commit. */
  function WholeAnswer(w: World, c: CallId, write: Write, readFault: bool, at: int, fault: Option<Stage>): Option<Result> {
    var first := AnswerTo(w, Begin(c, write, readFault));
    if first.Some? then first else AnswerTo(Apply(w, Begin(c, write, readFault)), Commit(c, at, fault))
  }

  /** A call that nothing overlaps is all or nothing, recorded exactly, and what it answers tells which. */
  lemma OneTransaction(w: World, c: CallId, write: Write, readFault: bool, at: int, fault: Option<Stage>)
    requires Inv(w) && c !in w.calls
    ensures WholeAnswer(w, c, write, readFault, at, fault).Some?
    ensures var w' := Run(w, [Begin(c, write, readFault), Commit(c, at, fault)]);
      && Honest(w.tables, w'.tables, TargetOf(write), WholeAnswer(w, c, write, readFault, at, fault).value)
      && w'.calls == w.calls && w'.echoes == w.echoes
  {
    RunTwo(w, Begin(c, write, readFault), Commit(c, at, fault));
    var w1 := Apply(w, Begin(c, write, readFault));
    StepKeepsInv(w, Begin(c, write, readFault));
    BeginOnlyReads(w, c, write, readFault);
    if c in w1.calls {
      FreshCommitIsExact(w1, c, at, fault);
    }
  }

  // ---------------------------------------------------------------- what a commit answers and leaves

  /** The rows a row refers to exist. */
  predicate HasReferences(rows: map<Key, Row>, k: Key, b: Body) {
    && (k.MarketKey? && b.Market? ==> AssetKey(b.base) in rows && AssetKey(b.quote) in rows && FeeKey(b.feeSchedule) in rows)
    && (k.LimitKey? ==> AssetKey(k.asset) in rows)
  }

  /** The row after an upsert: new, as it was, or one version on. */
  function Next(rows: map<Key, Row>, k: Key, b: Body): Row {
    Row(b, if k !in rows then 1 else rows[k].version + if rows[k].body == b then 0 else 1)
  }

  /** A statement that is reached fails: a quiet transaction has only the write and the commit. */
  predicate FailsAt(fault: Option<Stage>, k: Key, quiet: bool) {
    || fault == Some(AtWrite) || fault == Some(AtCommit)
    || (!quiet && (fault == Some(AtAudit) || (fault == Some(AtOutbox) && !k.LimitKey?)))
  }

  /** One audit record and, limits aside, one event about the row, at the end of what there was. */
  ghost predicate Recorded(t: Tables, t': Tables, k: Key, row: Row, action: Action, before: Option<Row>, at: int) {
    && |t'.audit| == |t.audit| + 1 && t'.audit[..|t.audit|] == t.audit
    && var a := t'.audit[|t.audit|];
    && a.action == action && a.target == OneRow(k) && (a.before.Some? <==> before.Some?)
    && At(a.after, Version) == Int(row.version)
    && (before.Some? ==> At(a.before.value, Version) == Int(before.value.version))
    && if k.LimitKey? then t'.outbox == t.outbox
       else
         && |t'.outbox| == |t.outbox| + 1 && t'.outbox[..|t.outbox|] == t.outbox
         && var e := t'.outbox[|t.outbox|];
         && e.target == OneRow(k) && e.version == row.version && e.occurredAt == at
         && (action == Create ==> e.changed == [Created]) && (action == StatusUpdate ==> e.changed == [Status])
         && (action == Update && before.Some? && Fits(k, before.value.body) && Fits(k, row.body) ==>
              Lists(e.changed, before.value.body, row.body))
  }

  lemma PerformRecords(t: Tables, d: Decision, at: int)
    requires d.Put? && (d.action == Create <==> d.before.None?)
    ensures Recorded(t, Perform(t, d, at), d.key, d.row, d.action, d.before, at)
  {
    ImageShows(d.row);
    if d.before.Some? {
      ImageShows(d.before.value);
      if Fits(d.key, d.before.value.body) && Fits(d.key, d.row.body) { DifferingExact(d.key, d.before.value.body, d.row.body); }
    }
  }

  /** What an upsert answers and leaves behind; it is quiet when the row after it has the version of the row read. */
  ghost predicate UpsertDone(t: Tables, t': Tables, k: Key, b: Body, admissible: bool, before: Option<Row>, at: int,
                             fault: Option<Stage>, res: Result) {
    var quiet := before.Some? && before.value.version == Next(t.rows, k, b).version;
    && (res == Failed(Invalid) <==> !admissible)
    && (res == Failed(NotFound) <==> admissible && !HasReferences(t.rows, k, b))
    && (admissible && HasReferences(t.rows, k, b) ==> (res.Failed? <==> FailsAt(fault, k, quiet)))
    && if res.Failed? then t' == t
       else
         && res == Ok(Next(t.rows, k, b)) && t'.rows == t.rows[k := res.row]
         && if quiet then t'.audit == t.audit && t'.outbox == t.outbox
            else Recorded(t, t', k, res.row, if before.Some? then Update else Create, before, at)
  }

  /** What a status write answers and leaves behind. */
  ghost predicate StatusDone(t: Tables, t': Tables, symbol: string, status: string, before: Option<Row>, at: int,
                             fault: Option<Stage>, res: Result) {
    var k := MarketKey(symbol); var market := k in t.rows && t.rows[k].body.Market?;
    && (res == Failed(Invalid) <==> status !in ["active", "halted", "cancel_only", "delisted"])
    && (res == Failed(NotFound) <==> status in ["active", "halted", "cancel_only", "delisted"] && !market)
    && (status in ["active", "halted", "cancel_only", "delisted"] && market ==>
        (res.Failed? <==> FailsAt(fault, k, t.rows[k].body.status == status)))
    && if res.Failed? then t' == t
       else
         && res.Ok? && market && t'.rows == t.rows[k := res.row]
         && var was := t.rows[k];
         && res.row == Row(was.body.(status := status), was.version + if was.body.status == status then 0 else 1)
         && if was.body.status == status then t'.audit == t.audit && t'.outbox == t.outbox
            else Recorded(t, t', k, res.row, StatusUpdate, before, at)
  }

  /** The row was read at some earlier moment: it is there, and no older now. */
  predicate ReadBefore(w: World, k: Key, before: Option<Row>) {
    before.Some? ==> k in w.tables.rows && before.value.version <= w.tables.rows[k].version
  }

  lemma UpsertMeans(w: World, c: CallId, at: int, fault: Option<Stage>)
    requires c in w.calls && w.calls[c].write.Upsert? && ReadBefore(w, w.calls[c].write.key, w.calls[c].before)
    ensures AnswerTo(w, Commit(c, at, fault)).Some?
    ensures var Call(Upsert(k, b, _, admissible), before) := w.calls[c];
      UpsertDone(w.tables, Apply(w, Commit(c, at, fault)).tables, k, b, admissible, before, at, fault,
                 AnswerTo(w, Commit(c, at, fault)).value)
  {
    var d := Decide(w.tables.rows, w.calls[c]);
    if d.Put? { PerformRecords(w.tables, d, at); }
  }

  lemma StatusMeans(w: World, c: CallId, at: int, fault: Option<Stage>)
    requires c in w.calls && w.calls[c].write.SetStatus? && w.calls[c].before.Some?
    ensures AnswerTo(w, Commit(c, at, fault)).Some?
    ensures var Call(SetStatus(symbol, status), before) := w.calls[c];
      StatusDone(w.tables, Apply(w, Commit(c, at, fault)).tables, symbol, status, before, at, fault,
                 AnswerTo(w, Commit(c, at, fault)).value)
  {
    var d := Decide(w.tables.rows, w.calls[c]);
    if d.Put? { PerformRecords(w.tables, d, at); }
  }

  // ---------------------------------------------------------------- what was asked for stays

  /** No commit of the run is about k. */
  ghost predicate Untouched(w: World, steps: seq<Step>, k: Key)
    decreases |steps|
  {
    steps != [] ==>
      && (steps[0].Commit? && steps[0].call in w.calls ==> TargetOf(w.calls[steps[0].call].write) != OneRow(k))
      && Untouched(Apply(w, steps[0]), steps[1..], k)
  }

  lemma {:induction false} RowStays(w: World, steps: seq<Step>, k: Key)
    requires Untouched(w, steps, k)
    ensures Current(Run(w, steps).tables.rows, OneRow(k)) == Current(w.tables.rows, OneRow(k))
    decreases |steps|
  {
    if steps != [] { RowStays(Apply(w, steps[0]), steps[1..], k); }
  }

  /** Once a status write has succeeded, the market has the status asked for until a later commit about it. */
  lemma StatusStays(w: World, c: CallId, at: int, fault: Option<Stage>, steps: seq<Step>)
    requires c in w.calls && w.calls[c].write.SetStatus? && AnswerTo(w, Commit(c, at, fault)).value.Ok?
    requires Untouched(Apply(w, Commit(c, at, fault)), steps, MarketKey(w.calls[c].write.symbol))
    ensures var k := MarketKey(w.calls[c].write.symbol); var rows := Run(Apply(w, Commit(c, at, fault)), steps).tables.rows;
      k in rows && rows[k].body.Market? && rows[k].body.status == w.calls[c].write.status
  {
    RowStays(Apply(w, Commit(c, at, fault)), steps, MarketKey(w.calls[c].write.symbol));
  }

  /** And once an upsert has succeeded, the row is as asked for. */
  lemma UpsertStays(w: World, c: CallId, at: int, fault: Option<Stage>, steps: seq<Step>)
    requires Inv(w) && c in w.calls && w.calls[c].write.Upsert? && AnswerTo(w, Commit(c, at, fault)).value.Ok?
    requires Untouched(Apply(w, Commit(c, at, fault)), steps, w.calls[c].write.key)
    ensures var k := w.calls[c].write.key; var rows := Run(Apply(w, Commit(c, at, fault)), steps).tables.rows;
      k in rows && rows[k].body == w.calls[c].write.body
  {
    CallIsSound(w, c);
    RowStays(Apply(w, Commit(c, at, fault)), steps, w.calls[c].write.key);
  }

  // ---------------------------------------------------------------- what overlapping calls can do

  const FEES := FeeKey("default")

  function PutFees(maker: int, taker: int): Write {
    Upsert(FEES, Fee(maker, taker), false, true)
  }

  /** Two calls that read the same row, then commit one after the other. */
  function Overlapping(first: Write, second: Write): seq<Step> {
    [Begin(0, first, false), Begin(1, second, false), Commit(0, 0, None), Commit(1, 0, None)]
  }

  lemma OverlappingRun(w: World, first: Write, second: Write)
    ensures Run(w, Overlapping(first, second)) ==
      Apply(Apply(Apply(Apply(w, Begin(0, first, false)), Begin(1, second, false)), Commit(0, 0, None)), Commit(1, 0, None))
  {
    var w2 := Apply(Apply(w, Begin(0, first, false)), Begin(1, second, false));
    RunTwo(w2, Commit(0, 0, None), Commit(1, 0, None));
    assert Overlapping(first, second)[1..][1..] == [Commit(0, 0, None), Commit(1, 0, None)];
    assert Run(Apply(w, Begin(0, first, false)), Overlapping(first, second)[1..]) == Run(w2, Overlapping(first, second)[1..][1..]);
  }

  /** The second of two edits that read `before`, over the row the first has left. */
  lemma CommitFees(w: World, c: CallId, before: Row, now: Row, maker: int, taker: int)
    requires c in w.calls && w.calls[c] == Call(PutFees(maker, taker), Some(before))
    requires w.tables.rows == map[FEES := now] && before.version < Upserted(w.tables.rows, FEES, Fee(maker, taker)).version
    ensures var after := Upserted(w.tables.rows, FEES, Fee(maker, taker)); var w' := Apply(w, Commit(c, 0, None));
      && w'.tables.rows == map[FEES := after] && w'.calls == w.calls - {c} && w'.start == w.start
      && w'.tables.outbox == w.tables.outbox + [Event(OneRow(FEES), Differing(Columns(FEES), before.body, Fee(maker, taker)), after.version, 0)]
      && w'.echoes == if after == now then w.echoes + [FEES] else w.echoes
  {
    var after := Upserted(w.tables.rows, FEES, Fee(maker, taker));
    assert Decide(w.tables.rows, w.calls[c]) == Put(FEES, after, Update, Some(before));
  }

  /** Where two edits end that both read (1, 2). */
  lemma TwoEdits(maker: int, taker: int) returns (start: map<Key, Row>, steps: seq<Step>, w: World)
    ensures start == map[FEES := Row(Fee(1, 2), 1)] && RowsSound(start) && Run(Starting(start), steps) == w
    ensures var first := Row(Fee(3, 4), 2); var last := Upserted(map[FEES := first], FEES, Fee(maker, taker));
      && w.tables.rows == map[FEES := last] && w.echoes == (if last == first then [FEES] else [])
      && |w.tables.outbox| == 2 && w.tables.outbox[0].version == 2 && w.tables.outbox[1].version == last.version
      && w.tables.outbox[0].target == OneRow(FEES) && w.tables.outbox[1].target == OneRow(FEES)
      && w.tables.outbox[1].changed == Differing(Columns(FEES), Fee(1, 2), Fee(maker, taker))
  {
    start := map[FEES := Row(Fee(1, 2), 1)];
    steps := Overlapping(PutFees(3, 4), PutFees(maker, taker));
    OverlappingRun(Starting(start), PutFees(3, 4), PutFees(maker, taker));
    var w1 := Apply(Starting(start), Begin(0, PutFees(3, 4), false));
    var w2 := Apply(w1, Begin(1, PutFees(maker, taker), false));
    CommitFees(w2, 0, start[FEES], start[FEES], 3, 4);
    var w3 := Apply(w2, Commit(0, 0, None));
    CommitFees(w3, 1, start[FEES], Row(Fee(3, 4), 2), maker, taker);
    w := Apply(w3, Commit(1, 0, None));
  }

  /** Two equal edits of one schedule: the second changes nothing, and is audited and announced as a second version 2. */
  lemma EqualEditsEcho() returns (start: map<Key, Row>, steps: seq<Step>)
    ensures RowsSound(start)
    ensures var w := Run(Starting(start), steps);
      && w.tables.rows == map[FEES := Row(Fee(3, 4), 2)] && w.echoes == [FEES]
      && AuditsOf(w.tables.audit, FEES) == 2 && |w.tables.outbox| == 2
      && w.tables.outbox[0].version == 2 && w.tables.outbox[1].version == 2
      && !NumberedAt(start, w.tables.outbox, FEES)
  {
    var w;
    start, steps, w := TwoEdits(3, 4);
    AccountsBalanceIff(start, steps, FEES);
    EveryRunIsRecorded(start, steps);
    assert CountedAt(w, FEES);
    EchoesAppend([], FEES, FEES);
    assert [] + [FEES] == [FEES];
  }

  /** An edit back to what it had read, over another edit: version 3 is announced with an empty list. */
  lemma EditBackHidesChange() returns (start: map<Key, Row>, steps: seq<Step>)
    ensures RowsSound(start)
    ensures var w := Run(Starting(start), steps);
      && w.tables.rows == map[FEES := Row(Fee(1, 2), 3)] && |w.tables.outbox| == 2
      && w.tables.outbox[1].version == 3 && w.tables.outbox[1].changed == []
  {
    var w;
    start, steps, w := TwoEdits(1, 2);
    NothingDiffers(Columns(FEES), Fee(1, 2));
  }

  /** A create that found no row and meets one takes it over, and is recorded as a creation. */
  lemma LostCreateOverwrites(w: World, c: CallId, at: int)
    requires Inv(w) && c in w.calls && w.calls[c].write.Upsert? && w.calls[c].write.create && w.calls[c].write.admissible
    requires var k := w.calls[c].write.key;
      !k.LimitKey? && k in w.tables.rows && References(w.tables.rows, k, w.calls[c].write.body)
    ensures var t' := Apply(w, Commit(c, at, None)).tables; var k := w.calls[c].write.key;
      && t'.rows[k].body == w.calls[c].write.body
      && t'.audit[|t'.audit| - 1].action == Create && t'.audit[|t'.audit| - 1].before == None
      && t'.outbox[|t'.outbox| - 1].changed == [Created]
      && (w.tables.rows[k].body != w.calls[c].write.body ==> t'.rows[k].version == w.tables.rows[k].version + 1)
  {
    CallIsSound(w, c);
  }

  // ---------------------------------------------------------------- for consumers of the events

  /** An event's row exists and is at least as new as the event says. */
  lemma EventIsInTable(w: World, i: nat)
    requires Inv(w) && i < |w.tables.outbox| && w.tables.outbox[i].target.OneRow?
    ensures w.tables.outbox[i].target.key in w.tables.rows
    ensures 1 <= w.tables.outbox[i].version <= w.tables.rows[w.tables.outbox[i].target.key].version
  {
    assert EventSound(w, w.tables.outbox[i]);
  }

  /** Events are only ever appended, one per transaction at most. */
  lemma OutboxGrows(w: World, step: Step)
    ensures var o := w.tables.outbox; var o' := Apply(w, step).tables.outbox;
      && o <= o' && |o'| <= |o| + 1
      && (|o'| > |o| ==> step.Commit? && o'[|o|].occurredAt == step.at)
  {
  }

  // ---------------------------------------------------------------- the handler

  /** admin.Handler over the tables; `calls` holds what the calls under way have read. */
  class Handler {
    var rows: map<Key, Row>
    var audit: seq<AuditRow>
    var outbox: seq<Event>
    var calls: map<CallId, Call>
    ghost var start: map<Key, Row>
    ghost var echoes: seq<Key>

    ghost function View(): World
      reads this
    {
      World(Tables(rows, audit, outbox), calls, start, echoes)
    }

    constructor (seeded: map<Key, Row>)
      ensures View() == Starting(seeded)
    {
      rows, audit, outbox, calls := seeded, [], [], map[];
      start, echoes := seeded, [];
    }

    /**
     upsertAsset, upsertMarket, upsertFeeSchedule and upsertWithdrawalLimit, which
     differ in their tables only, up to the read through the pool.
     */
    method BeginUpsert(c: CallId, k: Key, b: Body, create: bool, admissible: bool, fault: bool) returns (refused: Option<Result>)
      requires Fits(k, b) && c !in calls
      modifies this`calls
      ensures View() == Apply(old(View()), Begin(c, Upsert(k, b, create, admissible), fault))
      ensures refused == AnswerTo(old(View()), Begin(c, Upsert(k, b, create, admissible), fault))
      ensures refused == Some(Failed(Invalid)) <==> k.LimitKey? && !admissible
      ensures refused == Some(Failed(Database)) <==> fault && !(k.LimitKey? && !admissible)
      ensures refused == Some(Failed(AlreadyExists)) <==> !fault && !k.LimitKey? && create && k in rows
      ensures refused == Some(Failed(NotFound)) <==> !fault && !k.LimitKey? && !create && k !in rows
      ensures refused.None? <==> !fault && if k.LimitKey? then admissible else create == (k !in rows)
      ensures refused.None? ==>
        calls == old(calls)[c := Call(Upsert(k, b, create, admissible), if k in rows then Some(rows[k]) else None)]
      ensures refused.Some? ==> calls == old(calls)
    {
      if k.LimitKey? && !admissible {
        return Some(Failed(Invalid));
      }
      if fault {
        return Some(Failed(Database));
      }
      var before := if k in rows then Some(rows[k]) else None;
      if !k.LimitKey? && create && before.Some? {
        return Some(Failed(AlreadyExists));
      }
      if !k.LimitKey? && !create && before.None? {
        return Some(Failed(NotFound));
      }
      calls := calls[c := Call(Upsert(k, b, create, admissible), before)];
      refused := None;
    }

    /** The rest of the upsert: its statements inside the transaction, judged against the row read. */
    method CommitUpsert(c: CallId, at: int, fault: Option<Stage>) returns (res: Result)
      requires c in calls && calls[c].write.Upsert? && ReadBefore(View(), calls[c].write.key, calls[c].before)
      modifies this
      ensures View() == Apply(old(View()), Commit(c, at, fault))
      ensures Some(res) == AnswerTo(old(View()), Commit(c, at, fault))
      ensures var Call(Upsert(k, b, _, admissible), before) := old(calls)[c];
        UpsertDone(old(View()).tables, View().tables, k, b, admissible, before, at, fault, res)
      ensures calls == old(calls) - {c}
    {
      UpsertMeans(View(), c, at, fault);
      res := FinishUpsert(c, at, fault);
    }

    method FinishUpsert(c: CallId, at: int, fault: Option<Stage>) returns (res: Result)
      requires c in calls && calls[c].write.Upsert?
      modifies this
      ensures View() == Apply(old(View()), Commit(c, at, fault))
      ensures Some(res) == AnswerTo(old(View()), Commit(c, at, fault))
    {
      var Call(Upsert(k, b, create, admissible), before) := calls[c];
      calls := calls - {c};
      if !admissible {
        return Failed(Invalid);
      }
      if !References(rows, k, b) {
        return Failed(NotFound);
      }
      if fault == Some(AtWrite) {
        return Failed(Database);
      }
      var after := if k !in rows then Row(b, 1) else if rows[k].body == b then rows[k] else Row(b, rows[k].version + 1);
      if before.Some? && after.version == before.value.version {
        res := if fault == Some(AtCommit) then Failed(Database) else Ok(after);
        return;
      }
      res := Record(k, after, if before.Some? then Update else Create, before, at, fault);
    }

    /** setMarketStatus up to its read through the pool. */
    method BeginStatus(c: CallId, symbol: string, status: string, fault: bool) returns (refused: Option<Result>)
      requires c !in calls
      modifies this`calls
      ensures View() == Apply(old(View()), Begin(c, SetStatus(symbol, status), fault))
      ensures refused == AnswerTo(old(View()), Begin(c, SetStatus(symbol, status), fault))
      ensures refused == Some(Failed(Database)) <==> fault
      ensures refused == Some(Failed(NotFound)) <==> !fault && MarketKey(symbol) !in rows
      ensures refused.None? <==> !fault && MarketKey(symbol) in rows
      ensures refused.None? ==> calls == old(calls)[c := Call(SetStatus(symbol, status), Some(rows[MarketKey(symbol)]))]
      ensures refused.Some? ==> calls == old(calls)
    {
      if fault {
        return Some(Failed(Database));
      }
      if MarketKey(symbol) !in rows {
        return Some(Failed(NotFound));
      }
      calls := calls[c := Call(SetStatus(symbol, status), Some(rows[MarketKey(symbol)]))];
      refused := None;
    }

    /** The rest of setMarketStatus: the store compares with the row of now, the record shows the row read. */
    method CommitStatus(c: CallId, at: int, fault: Option<Stage>) returns (res: Result)
      requires c in calls && calls[c].write.SetStatus? && calls[c].before.Some?
      modifies this
      ensures View() == Apply(old(View()), Commit(c, at, fault))
      ensures Some(res) == AnswerTo(old(View()), Commit(c, at, fault))
      ensures var Call(SetStatus(symbol, status), before) := old(calls)[c];
        StatusDone(old(View()).tables, View().tables, symbol, status, before, at, fault, res)
      ensures calls == old(calls) - {c}
    {
      StatusMeans(View(), c, at, fault);
      res := FinishStatus(c, at, fault);
    }

    method FinishStatus(c: CallId, at: int, fault: Option<Stage>) returns (res: Result)
      requires c in calls && calls[c].write.SetStatus?
      modifies this
      ensures View() == Apply(old(View()), Commit(c, at, fault))
      ensures Some(res) == AnswerTo(old(View()), Commit(c, at, fault))
    {
      var Call(SetStatus(symbol, status), before) := calls[c];
      var k := MarketKey(symbol);
      calls := calls - {c};
      if !ValidMarketStatus(status) {
        return Failed(Invalid);
      }
      if k !in rows || !rows[k].body.Market? {
        return Failed(NotFound);
      }
      if fault == Some(AtWrite) {
        return Failed(Database);
      }
      var row := rows[k];
      if row.body.status == status {
        res := if fault == Some(AtCommit) then Failed(Database) else Ok(row);
        return;
      }
      res := Record(k, Row(row.body.(status := status), row.version + 1), StatusUpdate, before, at, fault);
    }

    /** A whole upsert that nothing overlaps. */
    method UpsertRow(c: CallId, k: Key, b: Body, create: bool, admissible: bool, readFault: bool, at: int, fault: Option<Stage>)
      returns (res: Result)
      requires Inv(View()) && Fits(k, b) && c !in calls
      modifies this
      ensures Honest(old(View()).tables, View().tables, OneRow(k), res)
      ensures Some(res) == WholeAnswer(old(View()), c, Upsert(k, b, create, admissible), readFault, at, fault)
      ensures calls == old(calls) && echoes == old(echoes)
      ensures res.Ok? ==> k in rows && rows[k] == res.row && res.row.body == b
    {
      ghost var write := Upsert(k, b, create, admissible);
      ghost var w := View();
      OneTransaction(w, c, write, readFault, at, fault);
      RunTwo(w, Begin(c, write, readFault), Commit(c, at, fault));
      var refused := BeginUpsert(c, k, b, create, admissible, readFault);
      if refused.Some? {
        return refused.value;
      }
      res := CommitUpsert(c, at, fault);
    }

    /** requestReload: an audit record and an event with no row changed. */
    method AskReload(at: int, fault: Option<Stage>) returns (res: Result)
      modifies this
      ensures res == if fault.Some? then Failed(Database) else Announced
      ensures View() == if res.Failed? then old(View()) else old(View()).(tables := Perform(old(View()).tables, Announce, at))
      ensures res.Announced? ==>
        && rows == old(rows) && calls == old(calls)
        && audit == old(audit) + [AuditRow(Reload, WholeRegistry, None, map[])]
        && outbox == old(outbox) + [Event(WholeRegistry, [], 0, at)]
    {
      if fault.Some? {
        return Failed(Database);
      }
      audit := audit + [AuditRow(Reload, WholeRegistry, None, map[])];
      outbox := outbox + [Event(WholeRegistry, [], 0, at)];
      res := Announced;
    }

    /** The shared tail: audit record, event unless the row is a limit, commit; a failing statement rolls all back. */
    method Record(k: Key, after: Row, action: Action, before: Option<Row>, at: int, fault: Option<Stage>) returns (res: Result)
      requires fault != Some(AtWrite)
      modifies this
      ensures var d := Put(k, after, action, before); var w := old(View());
        && res == (if Broken(fault, d) then Failed(Database) else Ok(after))
        && View() == if res.Failed? then w
            else w.(tables := Perform(w.tables, d, at), echoes := if IsEcho(w.tables.rows, d) then w.echoes + [k] else w.echoes)
    {
      var was, trail, box := rows, audit, outbox;
      rows := rows[k := after];
      if fault == Some(AtAudit) {
        rows := was;
        return Failed(Database);
      }
      audit := audit + [AuditOf(before, k, after, action)];
      if !k.LimitKey? {
        if fault == Some(AtOutbox) {
          rows, audit := was, trail;
          return Failed(Database);
        }
        outbox := outbox + [Event(OneRow(k), ChangedOf(before, k, after, action), after.version, at)];
      }
      if fault == Some(AtCommit) {
        rows, audit, outbox := was, trail, box;
        return Failed(Database);
      }
      if k in was && was[k] == after { echoes := echoes + [k]; }
      res := Ok(after);
    }
  }
}
